/** What a handler thread knows at each place, and what its steps are allowed to do
    to the rest of the server. */
module Legality {
  import opened Common
  import P = Protocol
  import L = ServerLines
  import opened Auth
  import opened Registry
  import opened MessageQueue
  import opened ServerState
  import opened Handlers
  import opened ServerSteps

  /** The thread has a node in the registry. */
  predicate Registered(hd: Handler) {
    AddedPc(hd.pc) || (hd.auth && !EndPc(hd.pc))
  }

  /** The thread has, or may have had, a node in the registry. */
  predicate Enrolled(hd: Handler) {
    Registered(hd) || EndPc(hd.pc)
  }

  /** The name passed the password check of its first database record. */
  predicate Identified(env: Env, hd: Handler) {
    P.FitsWord(hd.name, MAX_USERNAME_LEN) && Verified(env.records, env.digest, hd.name, hd.pass)
  }

  /** A text that fits its array and does not end in a newline or carriage return:
      what is left of a line after reading, trimming and parsing. */
  predicate FitsField(s: string, cap: nat) {
    P.FitsRest(s, cap) && IsTrim(s)
  }

  /** What the live local variables of the source hold. */
  predicate PcOk(env: Env, hd: Handler) {
    match hd.pc
    case AVerify(user, _) => P.FitsWord(user, MAX_USERNAME_LEN)
    case AExists(who) => who == hd.name && Identified(env, hd)
    case AFlag(who) => who == hd.name && Identified(env, hd)
    case AAdd(who, flag) => who == hd.name && Identified(env, hd) && flag == Admin(env.records, who)
    case AWelcome(who) => who == hd.name && hd.home == DEFAULT_ROOM
    case AUndo(who) => who == hd.name && hd.home == DEFAULT_ROOM
    case AJoined(who) => who == hd.name && hd.home == DEFAULT_ROOM
    case AFormat(who) => who == hd.name && hd.home == DEFAULT_ROOM
    case AHistory(who) => who == hd.name && hd.home == DEFAULT_ROOM
    case AOkay(who) => who == hd.name && hd.home == DEFAULT_ROOM
    case APush(who) => who == hd.name && hd.home == DEFAULT_ROOM
    case JName(room) => FitsField(room, MAX_ROOM_NAME_LEN)
    case JRoom(room, who) => FitsField(room, MAX_ROOM_NAME_LEN) && who == hd.name
    case JLeave(room, who, left) => FitsField(room, MAX_ROOM_NAME_LEN) && who == hd.name && left == hd.home != room
    case JSet(room, who, left) => FitsField(room, MAX_ROOM_NAME_LEN) && who == hd.name && left == hd.home != room
    case JReply(room, who, left) => who == hd.name && room == hd.home != left
    case JFormat(room, who, left) => who == hd.name && room == hd.home != left
    case JHistory(room, who, left) => who == hd.name && room == hd.home != left
    case JPush(room, who, left) => who == hd.name && room == hd.home != left
    case MName(text) => FitsField(text, MAX_MSG_LEN)
    case MRoom(text, who) => FitsField(text, MAX_MSG_LEN) && who == hd.name
    case MHistory(text, who, room) => FitsField(text, MAX_MSG_LEN) && who == hd.name && room == hd.home
    case MPush(text, who, room, _) => FitsField(text, MAX_MSG_LEN) && who == hd.name && room == hd.home
    case PName(target, text) => P.FitsWord(target, MAX_USERNAME_LEN) && FitsField(text, MAX_MSG_LEN)
    case PLookup(target, who, text) => FitsField(text, MAX_MSG_LEN) && who == hd.name != target
    case PSend(target, who, text, fd, _) => fd >= 0 && FitsField(text, MAX_MSG_LEN) && who == hd.name != target
    case KFlag(target) => target != ""
    case KName(_) => hd.admin
    case KLookup(target) => hd.admin && target != hd.name
    case KSend(target, fd, _) => fd >= 0 && hd.admin && target != hd.name
    case KShut(target, fd, _) => fd >= 0 && hd.admin && target != hd.name
    case BPush(room) => room == hd.home
    case BFree(node) => node == hd.sid
    case AFree(node) => node == hd.sid
    case _ => true
  }

  predicate LocalOk(env: Env, hd: Handler) {
    && (AuthPc(hd.pc) || hd.pc.Refuse? || hd.pc.AFree? ==> !hd.auth)
    && (JoinPc(hd.pc) || MsgPc(hd.pc) || QueryPc(hd.pc) || KickPc(hd.pc) || LeavePc(hd.pc) ==> hd.auth)
    && (Registered(hd) ==> Identified(env, hd) && hd.admin == Admin(env.records, hd.name)
                           && FitsField(hd.home, MAX_ROOM_NAME_LEN))
    && (hd.auth && !EndPc(hd.pc) ==> hd.user == hd.name)
    && PcOk(env, hd)
  }

  /** Where a registered session stands in its own event history. */
  datatype Phase = Fresh | In(room: string) | Between(left: string) | Over

  function PhaseOf(hd: Handler): Phase {
    if AddedPc(hd.pc) then Fresh
    else if SwitchPc(hd.pc) then Between(hd.pc.left)
    else if hd.pc.BRemove? then Over
    else In(hd.home)
  }

  /** The events a session may cause: JOIN lobby first, CHAT and LEAVE of the current
      room, JOIN of another room after a LEAVE, nothing after the last LEAVE. */
  predicate PhaseMove(p: Phase, e: Event, q: Phase) {
    match p
    case Fresh => e.kind == Join && e.room == DEFAULT_ROOM && q == In(e.room)
    case In(r) => e.room == r && ((e.kind == Chat && q == p) || (e.kind == Leave && (q == Between(r) || q == Over)))
    case Between(l) => e.kind == Join && e.room != l && q == In(e.room)
    case Over => false
  }

  /** The chat line that is already in the room history but not yet in the queue. */
  function InFlight(hd: Handler): seq<ChatRecord> {
    match hd.pc
    case MPush(text, who, room, time) => [ChatRecord(hd.sid, who, room, text, time)]
    case _ => []
  }

  function ChatOf(e: Event): ChatRecord {
    ChatRecord(e.sid, e.user, e.room, e.text, e.time)
  }

  /** The fields of an event fit the arrays of the message structure. */
  predicate EventOk(e: Event) {
    && e.kind != Shutdown
    && P.FitsWord(e.user, MAX_USERNAME_LEN) && FitsField(e.room, MAX_ROOM_NAME_LEN)
    && (if e.kind == Chat then FitsField(e.text, MAX_MSG_LEN) else e.text == "")
  }

  predicate KickOk(env: Env, k: KickRecord) {
    && Verified(env.records, env.digest, k.admin, k.pass)
    && Admin(env.records, k.admin)
    && k.target != k.admin
  }

  /** The node, the registration and the phase stay as they are. */
  predicate Same(hd: Handler, hd': Handler) {
    && (Registered(hd) <==> Registered(hd'))
    && (Registered(hd) ==> NodeOf(hd') == NodeOf(hd) && PhaseOf(hd') == PhaseOf(hd))
  }

  predicate EffectOk(env: Env, s: Server, hd: Handler, hd': Handler, eff: Effect) {
    match eff
    case Quiet => Same(hd, hd') && InFlight(hd) == InFlight(hd') == []
    case Uncount => Same(hd, hd') && InFlight(hd) == InFlight(hd') == []
    case KickOut(k) =>
      Same(hd, hd') && InFlight(hd) == InFlight(hd') == [] && KickOk(env, k) && Registered(hd)
      && k.sid == hd.sid && k.admin == hd.name && k.pass == hd.pass
    case Record(c) =>
      Same(hd, hd') && Registered(hd) && InFlight(hd) == [] && InFlight(hd') == [c] && c.sid == hd.sid
      && |c.room| < MAX_ROOM_NAME_LEN && c.user == hd.name
    case Register(e) =>
      && !Enrolled(hd) && Registered(hd') && PhaseOf(hd') == Fresh && InFlight(hd) == InFlight(hd') == []
      && e == NodeOf(hd') && e.sid == |s.sessions| && AddResult(s.registry, e.username) == Ok
    case Unregister(fd) =>
      && Registered(hd) && !Registered(hd') && fd == hd.fd && InFlight(hd) == InFlight(hd') == []
      && (PhaseOf(hd) == Fresh || PhaseOf(hd) == Over) && FreeingPc(hd'.pc)
    case Free(node) =>
      Same(hd, hd') && InFlight(hd) == InFlight(hd') == []
      && FreeingPc(hd.pc) && ReleasedPc(hd'.pc) && node == hd.sid
    case Relocate(fd, room) =>
      && Registered(hd) && Registered(hd') && fd == hd.fd && InFlight(hd) == InFlight(hd') == []
      && NodeOf(hd') == NodeOf(hd).(room := room) && PhaseOf(hd').Between? && PhaseOf(hd') == PhaseOf(hd)
    case Enqueue(e) =>
      && Registered(hd) && Registered(hd') && NodeOf(hd') == NodeOf(hd)
      && EventOk(e) && e.sid == hd.sid && e.user == hd.name && PhaseMove(PhaseOf(hd), e, PhaseOf(hd'))
      && InFlight(hd') == [] && InFlight(hd) == if e.kind == Chat then [ChatOf(e)] else []
  }

  /** The session that a command has looked up and is about to act on. */
  datatype Peer = Peer(target: string, fd: int, sid: nat)

  function PeerOf(pc: Pc): Option<Peer> {
    match pc
    case PSend(target, _, _, fd, peer) => Some(Peer(target, fd, peer))
    case KSend(target, fd, peer) => Some(Peer(target, fd, peer))
    case KShut(target, fd, peer) => Some(Peer(target, fd, peer))
    case _ => None
  }

  /** A peer is kept, dropped, or just found in the registry by its name. */
  predicate PeerMove(s: Server, hd: Handler, hd': Handler) {
    var p := PeerOf(hd'.pc);
    p.Some? && p != PeerOf(hd.pc) ==>
      ByName(s.registry, p.value.target).Some?
      && var n := ByName(s.registry, p.value.target).value;
         p.value.fd == n.fd && p.value.sid == n.sid
  }

  /** What every step of a handler thread keeps to. */
  predicate Legal(env: Env, s: Server, hd: Handler, hd': Handler, eff: Effect) {
    && hd'.fd == hd.fd && LocalOk(env, hd')
    && !hd.pc.Gone? && (hd'.pc.Gone? <==> eff.Uncount?)
    && (HoldsFd(hd') ==> HoldsFd(hd))
    && (Enrolled(hd) ==> Enrolled(hd') && hd'.name == hd.name && hd'.pass == hd.pass)
    && (eff.Register? || hd'.sid == hd.sid)
    && (FreeingPc(hd'.pc) ==> eff.Unregister?)
    && (Enrolled(hd) && !eff.Free? ==> (ReleasedPc(hd'.pc) <==> ReleasedPc(hd.pc)))
    && EffectOk(env, s, hd, hd', eff)
    && PeerMove(s, hd, hd') && (PeerOf(hd'.pc).Some? ==> eff.Quiet?)
  }

  /** The thread's descriptor finds the thread's own node. */
  ghost predicate OwnsNode(s: Server, hd: Handler) {
    Registered(hd) ==> ByFd(s.registry, hd.fd) == Some(NodeOf(hd))
  }

  /** What reading, trimming and parsing guarantee about the arguments. */
  lemma ArgumentsOk(line: string)
    ensures match P.ParseClient(Trimmed(line))
            case Some(Auth(u, _)) => P.FitsWord(u, MAX_USERNAME_LEN)
            case Some(JoinRoom(r)) => FitsField(r, MAX_ROOM_NAME_LEN)
            case Some(Msg(t)) => FitsField(t, MAX_MSG_LEN)
            case Some(Pm(u, t)) => P.FitsWord(u, MAX_USERNAME_LEN) && FitsField(t, MAX_MSG_LEN)
            case Some(Kick(u)) => u != ""
            case _ => true
  {
    P.ParsedIsBuilt(Trimmed(line));
    if P.ParseClient(Trimmed(line)).Some? {
      L.ReadTextIsTrim(line);
    }
    hide P.ParseClient, P.CommandText, Trimmed;
  }

  lemma DispatchOk(env: Env, hd: Handler, line: string)
    requires LocalOk(env, hd) && hd.pc.Recv?
    ensures var hd' := hd.(pc := Dispatch(hd, P.ParseClient(Trimmed(line))));
            LocalOk(env, hd') && Same(hd, hd') && InFlight(hd') == [] && !hd'.pc.Gone? && !hd'.pc.Counting?
            && PeerOf(hd'.pc) == None && !FreeingPc(hd'.pc)
            && (Enrolled(hd) ==> Enrolled(hd'))
  {
    ArgumentsOk(line);
    hide P.ParseClient, FitsField, Verified, Admin, Trimmed;
    var c := P.ParseClient(Trimmed(line));
  }

  lemma RecvLegal(env: Env, s: Server, hd: Handler, c: Choice)
    requires LocalOk(env, hd) && hd.pc.Recv? && LoopStep(s, hd, c).Some?
    ensures var (hd', eff) := LoopStep(s, hd, c).value;
            Legal(env, s, hd, hd', eff)
  {
    hide FitsField, Trimmed, P.ParseClient, Verified, Admin, Dispatch, AddResult, ByName, EventOk, KickOk, PhaseMove;
    if c.Line? {
      DispatchOk(env, hd, c.line);
    }
  }

  /** Leaving the command loop. */
  lemma ByeLegal(env: Env, s: Server, hd: Handler)
    requires LocalOk(env, hd) && (hd.pc.Top? || hd.pc.Reply? || hd.pc.Refuse?)
    ensures Legal(env, s, hd, hd.(pc := Bye(hd)), Quiet)
  {
    hide FitsField, Verified, Admin;
  }

  /** Staying in it. */
  lemma StayLegal(env: Env, s: Server, hd: Handler, pc: Pc)
    requires LocalOk(env, hd) && (hd.pc.Top? || hd.pc.Reply?) && (pc.Top? || pc.Recv?)
    ensures Legal(env, s, hd, hd.(pc := pc), Quiet)
  {
    hide FitsField, Verified, Admin;
  }

  lemma LoopLegal(env: Env, s: Server, hd: Handler, c: Choice)
    requires LocalOk(env, hd) && (hd.pc.Top? || hd.pc.Reply? || hd.pc.Refuse?) && LoopStep(s, hd, c).Some?
    ensures var (hd', eff) := LoopStep(s, hd, c).value;
            Legal(env, s, hd, hd', eff)
  {
    hide Legal, LocalOk, Bye;
    if LoopStep(s, hd, c) == To(hd, Bye(hd)) {
      ByeLegal(env, s, hd);
    } else {
      StayLegal(env, s, hd, LoopStep(s, hd, c).value.0.pc);
    }
  }

  /** Places of a logged-in thread outside room switches, chat pushes and disconnect. */
  predicate Plain(pc: Pc) {
    !AuthPc(pc) && !SwitchPc(pc) && !pc.MPush? && !pc.BRemove? && !EndPc(pc) && !pc.Refuse?
  }

  /** A logged-in thread that only moves on. */
  lemma PlainLegal(env: Env, s: Server, hd: Handler, pc: Pc)
    requires LocalOk(env, hd) && hd.auth && Plain(hd.pc) && Plain(pc)
    requires PcOk(env, hd.(pc := pc)) && PeerMove(s, hd, hd.(pc := pc))
    ensures Legal(env, s, hd, hd.(pc := pc), Quiet)
  {
    hide PcOk, PeerMove, PeerOf, FitsField, Verified, Admin;
  }

  /** A thread that moves on within its login, or within a room switch. */
  lemma WithinLegal(env: Env, s: Server, hd: Handler, pc: Pc)
    requires LocalOk(env, hd) && PcOk(env, hd.(pc := pc))
    requires (AddedPc(hd.pc) && AddedPc(pc)) || (SwitchPc(hd.pc) && SwitchPc(pc) && pc.left == hd.pc.left)
    ensures Legal(env, s, hd, hd.(pc := pc), Quiet)
  {
    hide PcOk, ByName, FitsField, Verified, Admin;
  }

  /** Places of a thread that is not logged in and not leaving. */
  predicate Outside(pc: Pc) {
    pc.AVerify? || pc.AExists? || pc.AFlag? || pc.AAdd? || pc.Refuse?
  }

  /** A thread that moves on within the checks before its login. */
  lemma OutsideLegal(env: Env, s: Server, hd: Handler, hd': Handler)
    requires LocalOk(env, hd) && Outside(hd.pc) && Outside(hd'.pc) && PcOk(env, hd')
    requires hd' == hd.(pc := hd'.pc, name := hd'.name, pass := hd'.pass)
    ensures Legal(env, s, hd, hd', Quiet)
  {
    hide PcOk, ByName, FitsField, Verified, Admin;
  }

  lemma LoginLegal(env: Env, s: Server, hd: Handler, c: Choice)
    requires LocalOk(env, hd) && (hd.pc.AVerify? || hd.pc.AExists? || hd.pc.AFlag?) && AuthStep(env, s, hd, c).Some?
    ensures var (hd', eff) := AuthStep(env, s, hd, c).value;
            Legal(env, s, hd, hd', eff)
  {
    hide Legal, Verified, Admin, AddResult, HistoryFits, ByName, FitsField;
    OutsideLegal(env, s, hd, AuthStep(env, s, hd, c).value.0);
  }

  lemma RegisterLegal(env: Env, s: Server, hd: Handler, c: Choice)
    requires LocalOk(env, hd) && hd.pc.AAdd? && AuthStep(env, s, hd, c).Some?
    ensures var (hd', eff) := AuthStep(env, s, hd, c).value;
            Legal(env, s, hd, hd', eff)
  {
    hide Verified, Admin, AddResult, HistoryFits, ByName, EventOk, KickOk, PhaseMove;
  }

  lemma WelcomeLegal(env: Env, s: Server, hd: Handler, c: Choice)
    requires LocalOk(env, hd) && AddedPc(hd.pc) && !hd.pc.AUndo? && !hd.pc.APush? && AuthStep(env, s, hd, c).Some?
    ensures var (hd', eff) := AuthStep(env, s, hd, c).value;
            Legal(env, s, hd, hd', eff)
  {
    hide Legal, FitsField, Verified, Admin, AddResult, HistoryFits, ByName;
    WithinLegal(env, s, hd, AuthStep(env, s, hd, c).value.0.pc);
  }

  lemma LoggedInLegal(env: Env, s: Server, hd: Handler, c: Choice)
    requires LocalOk(env, hd) && (hd.pc.AUndo? || hd.pc.APush?) && AuthStep(env, s, hd, c).Some? && OwnsNode(s, hd)
    ensures var (hd', eff) := AuthStep(env, s, hd, c).value;
            Legal(env, s, hd, hd', eff)
  {
    hide FitsField, Verified, Admin, AddResult, HistoryFits, ByName, KickOk;
  }

  lemma JoinLegal(env: Env, s: Server, hd: Handler, c: Choice)
    requires LocalOk(env, hd) && (hd.pc.JName? || hd.pc.JRoom?) && JoinStep(s, hd, c).Some? && OwnsNode(s, hd)
    ensures var (hd', eff) := JoinStep(s, hd, c).value;
            Legal(env, s, hd, hd', eff)
  {
    hide Legal, FitsField, Verified, Admin, AddResult, ByFd, ByName, HistoryFits;
    PlainLegal(env, s, hd, JoinStep(s, hd, c).value.0.pc);
  }

  lemma DepartLegal(env: Env, s: Server, hd: Handler, c: Choice)
    requires LocalOk(env, hd) && hd.pc.JLeave? && JoinStep(s, hd, c).Some?
    ensures var (hd', eff) := JoinStep(s, hd, c).value;
            Legal(env, s, hd, hd', eff)
  {
    hide FitsField, Verified, Admin, AddResult, HistoryFits, ByFd;
  }

  lemma SwitchLegal(env: Env, s: Server, hd: Handler, c: Choice)
    requires LocalOk(env, hd) && SwitchPc(hd.pc) && !hd.pc.JSet? && !hd.pc.JPush? && JoinStep(s, hd, c).Some?
    ensures var (hd', eff) := JoinStep(s, hd, c).value;
            Legal(env, s, hd, hd', eff)
  {
    hide Legal, FitsField, Verified, Admin, AddResult, HistoryFits, ByFd;
    WithinLegal(env, s, hd, JoinStep(s, hd, c).value.0.pc);
  }

  lemma ArriveLegal(env: Env, s: Server, hd: Handler, c: Choice)
    requires LocalOk(env, hd) && hd.pc.JPush? && JoinStep(s, hd, c).Some?
    ensures var (hd', eff) := JoinStep(s, hd, c).value;
            Legal(env, s, hd, hd', eff)
  {
    hide FitsField, Verified, Admin, AddResult, HistoryFits, ByFd, ByName, KickOk;
  }

  lemma MoveLegal(env: Env, s: Server, hd: Handler, c: Choice)
    requires LocalOk(env, hd) && hd.pc.JSet? && JoinStep(s, hd, c).Some?
    ensures var (hd', eff) := JoinStep(s, hd, c).value;
            Legal(env, s, hd, hd', eff)
  {
    hide Verified, Admin, AddResult, HistoryFits, ByFd, ByName, KickOk;
  }

  lemma MsgLegal(env: Env, s: Server, hd: Handler, c: Choice)
    requires LocalOk(env, hd) && (hd.pc.MName? || hd.pc.MRoom?) && MsgStep(s, hd, c).Some? && OwnsNode(s, hd)
    ensures var (hd', eff) := MsgStep(s, hd, c).value;
            Legal(env, s, hd, hd', eff)
  {
    hide Legal, FitsField, Verified, Admin, AddResult, ByFd, ByName, HistoryFits;
    PlainLegal(env, s, hd, MsgStep(s, hd, c).value.0.pc);
  }

  /** The chat line is remembered, then queued. */
  lemma ChatLegal(env: Env, s: Server, hd: Handler, c: Choice)
    requires LocalOk(env, hd) && (hd.pc.MHistory? || hd.pc.MPush?) && MsgStep(s, hd, c).Some?
    ensures var (hd', eff) := MsgStep(s, hd, c).value;
            Legal(env, s, hd, hd', eff)
  {
    hide IsTrim, ByName, KickOk, Verified, Admin, AddResult, ByFd;
  }

  lemma PmLegal(env: Env, s: Server, hd: Handler, c: Choice)
    requires LocalOk(env, hd) && (hd.pc.PName? || hd.pc.PLookup? || hd.pc.PSend?)
    requires QueryStep(s, hd, c).Some? && OwnsNode(s, hd)
    ensures var (hd', eff) := QueryStep(s, hd, c).value;
            Legal(env, s, hd, hd', eff)
  {
    hide Legal, FitsField, Verified, Admin, AddResult, ByFd, ByName, HistoryFits;
    PlainLegal(env, s, hd, QueryStep(s, hd, c).value.0.pc);
  }

  /** LIST and HISTORY */
  lemma AskLegal(env: Env, s: Server, hd: Handler, c: Choice)
    requires LocalOk(env, hd) && QueryPc(hd.pc) && !hd.pc.PName? && !hd.pc.PLookup? && !hd.pc.PSend?
    requires QueryStep(s, hd, c).Some? && OwnsNode(s, hd)
    ensures var (hd', eff) := QueryStep(s, hd, c).value;
            Legal(env, s, hd, hd', eff)
  {
    hide Legal, FitsField, Verified, Admin, AddResult, ByFd, ByName, HistoryFits;
    PlainLegal(env, s, hd, QueryStep(s, hd, c).value.0.pc);
  }

  lemma KickLegal(env: Env, s: Server, hd: Handler, c: Choice)
    requires LocalOk(env, hd) && KickPc(hd.pc) && !hd.pc.KShut? && KickStep(s, hd, c).Some? && OwnsNode(s, hd)
    ensures var (hd', eff) := KickStep(s, hd, c).value;
            Legal(env, s, hd, hd', eff)
  {
    hide Legal, FitsField, Verified, Admin, AddResult, ByFd, ByName, HistoryFits;
    PlainLegal(env, s, hd, KickStep(s, hd, c).value.0.pc);
  }

  lemma KickOutLegal(env: Env, s: Server, hd: Handler, c: Choice)
    requires LocalOk(env, hd) && hd.pc.KShut? && KickStep(s, hd, c).Some?
    ensures var (hd', eff) := KickStep(s, hd, c).value;
            Legal(env, s, hd, hd', eff)
  {
    hide FitsField, Verified, Admin, AddResult, ByFd, ByName;
  }

  lemma LeaveLegal(env: Env, s: Server, hd: Handler)
    requires LocalOk(env, hd) && hd.pc.BRoom? && LeaveStep(s, hd).Some? && OwnsNode(s, hd)
    ensures var (hd', eff) := LeaveStep(s, hd).value;
            Legal(env, s, hd, hd', eff)
  {
    hide Legal, FitsField, Verified, Admin, ByFd;
    PlainLegal(env, s, hd, LeaveStep(s, hd).value.0.pc);
  }

  lemma GoneLegal(env: Env, s: Server, hd: Handler)
    requires LocalOk(env, hd) && (hd.pc.BPush? || hd.pc.BRemove?) && LeaveStep(s, hd).Some? && OwnsNode(s, hd)
    ensures var (hd', eff) := LeaveStep(s, hd).value;
            Legal(env, s, hd, hd', eff)
  {
    hide FitsField, Verified, Admin, AddResult, ByFd, ByName, KickOk;
  }

  lemma ReleasedPcOk(env: Env, hd: Handler)
    requires ReleasedPc(hd.pc)
    ensures PcOk(env, hd)
  {
  }

  lemma FreedLegal(env: Env, s: Server, hd: Handler)
    requires LocalOk(env, hd) && FreeingPc(hd.pc)
    ensures LeaveStep(s, hd) == Some((hd.(pc := Closing), Free(hd.sid)))
    ensures Legal(env, s, hd, hd.(pc := Closing), Free(hd.sid))
  {
    ReleasedPcOk(env, hd.(pc := Closing));
    assert LeaveStep(s, hd) == Some((hd.(pc := Closing), Free(hd.sid)));
    hide LeaveStep, PcOk, FitsField, Identified, Admin;
  }

  lemma EndLegal(env: Env, s: Server, hd: Handler)
    requires LocalOk(env, hd) && ReleasedPc(hd.pc) && LeaveStep(s, hd).Some?
    ensures var (hd', eff) := LeaveStep(s, hd).value;
            Legal(env, s, hd, hd', eff)
  {
    ReleasedPcOk(env, LeaveStep(s, hd).value.0);
    hide PcOk, FitsField, Identified, Admin, ByFd;
  }

  /** Every step of every handler thread is legal. */
  lemma ActionLegal(env: Env, s: Server, hd: Handler, c: Choice)
    requires LocalOk(env, hd) && OwnsNode(s, hd) && HandlerAction(env, s, hd, c).Some?
    ensures var (hd', eff) := HandlerAction(env, s, hd, c).value;
            Legal(env, s, hd, hd', eff)
  {
    hide Legal, AuthStep, JoinStep, MsgStep, QueryStep, KickStep, LeaveStep, LoopStep, LocalOk, OwnsNode;
    if hd.pc.AUndo? || hd.pc.APush? { LoggedInLegal(env, s, hd, c); }
    else if AddedPc(hd.pc) { WelcomeLegal(env, s, hd, c); }
    else if hd.pc.AAdd? { RegisterLegal(env, s, hd, c); }
    else if AuthPc(hd.pc) { LoginLegal(env, s, hd, c); }
    else if hd.pc.JSet? { MoveLegal(env, s, hd, c); }
    else if hd.pc.JPush? { ArriveLegal(env, s, hd, c); }
    else if SwitchPc(hd.pc) { SwitchLegal(env, s, hd, c); }
    else if hd.pc.JLeave? { DepartLegal(env, s, hd, c); }
    else if JoinPc(hd.pc) { JoinLegal(env, s, hd, c); }
    else if hd.pc.MHistory? || hd.pc.MPush? { ChatLegal(env, s, hd, c); }
    else if MsgPc(hd.pc) { MsgLegal(env, s, hd, c); }
    else if hd.pc.PName? || hd.pc.PLookup? || hd.pc.PSend? { PmLegal(env, s, hd, c); }
    else if QueryPc(hd.pc) { AskLegal(env, s, hd, c); }
    else if hd.pc.KShut? { KickOutLegal(env, s, hd, c); }
    else if KickPc(hd.pc) { KickLegal(env, s, hd, c); }
    else if hd.pc.BRoom? { LeaveLegal(env, s, hd); }
    else if LeavePc(hd.pc) { GoneLegal(env, s, hd); }
    else if FreeingPc(hd.pc) { FreedLegal(env, s, hd); }
    else if EndPc(hd.pc) { EndLegal(env, s, hd); }
    else if hd.pc.Recv? { RecvLegal(env, s, hd, c); }
    else { LoopLegal(env, s, hd, c); }
  }
}
