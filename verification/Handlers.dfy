/** One step of a client handler thread (client_handler in src/server/server.c and
    the command handlers in src/server/commands.c): what becomes of the thread and
    which effect it has on shared state. */
module Handlers {
  import opened Common
  import P = Protocol
  import opened Auth
  import opened Registry
  import opened MessageQueue
  import opened RoomManager
  import opened ServerState

  datatype Effect =
    | Quiet
    | Register(entry: Entry)
    | Unregister(fd: int)
    | Free(node: nat)
    | Relocate(fd: int, room: string)
    | Enqueue(event: Event)
    | Record(chat: ChatRecord)
    | KickOut(kick: KickRecord)
    | Uncount

  type Action = Option<(Handler, Effect)>

  function To(hd: Handler, pc: Pc): Action {
    Some((hd.(pc := pc), Quiet))
  }

  /** disconnect_client as reached from the command loop. */
  function Bye(hd: Handler): Pc {
    if hd.auth && hd.user != "" then BRoom else Closing
  }

  /** The loop, the reader and the two kinds of reply that end a command. */
  function LoopStep(s: Server, hd: Handler, c: Choice): Action {
    match (hd.pc, c)
    case (Top, Go) => To(hd, if s.running then Recv else Bye(hd))
    case (Recv, Line(line)) => To(hd, Dispatch(hd, P.ParseClient(Trimmed(line))))
    case (Recv, Fault) => To(hd, Bye(hd))
    case (Reply, Go) => To(hd, Top)
    case (Reply, Fault) => To(hd, Bye(hd))
    case (Refuse, _) => To(hd, Bye(hd))
    case _ => None
  }

  function Dispatch(hd: Handler, cmd: Option<P.Command>): Pc {
    match cmd
    case None => Reply
    case Some(c) =>
      if !hd.auth then
        if c.Auth? then AVerify(c.user, c.pass) else Reply
      else match c
        case Auth(_, _) => Reply
        case JoinRoom(room) => JName(room)
        case Msg(text) => MName(text)
        case Pm(target, text) => PName(target, text)
        case List => LName
        case History => HName
        case Kick(target) => KFlag(target)
        case Quit => Bye(hd)
  }

  /** Whether room_history_send_to_client gets as far as sending. */
  predicate HistoryFits(rooms: seq<Room>, room: string) {
    |Payload(HistoryOf(rooms, room))| <= MAX_LINE_LEN - 10
  }

  function AuthStep(env: Env, s: Server, hd: Handler, c: Choice): Action {
    match hd.pc
    case AVerify(user, password) =>
      if c == Go && user != "" && password != "" && Verified(env.records, env.digest, user, password) then
        Some((hd.(pc := AExists(user), name := user, pass := password), Quiet))
      else To(hd, Refuse)
    case AExists(who) => To(hd, if ByName(s.registry, who).Some? then Refuse else AFlag(who))
    case AFlag(who) => To(hd, AAdd(who, Admin(env.records, who)))
    case AAdd(who, flag) =>
      if AddResult(s.registry, who) != Ok then To(hd, Refuse)
      else Some((hd.(pc := AWelcome(who), sid := |s.sessions|, home := DEFAULT_ROOM, admin := flag),
                 Register(Entry(|s.sessions|, hd.fd, who, DEFAULT_ROOM, flag))))
    case AWelcome(who) => To(hd, if c == Go then AJoined(who) else AUndo(who))
    case AUndo(_) =>
      (match ByFd(s.registry, hd.fd)
       case None => To(hd, Bye(hd))
       case Some(n) => Some((hd.(pc := AFree(n.sid)), Unregister(hd.fd))))
    case AJoined(who) => To(hd, AFormat(who))
    case AFormat(who) => To(hd, if HistoryFits(s.rooms, DEFAULT_ROOM) then AHistory(who) else AOkay(who))
    case AHistory(who) => To(hd, AOkay(who))
    case AOkay(who) => To(hd, APush(who))
    case APush(who) =>
      Some((hd.(pc := Top, auth := true, user := who), Enqueue(Event(Join, hd.sid, who, DEFAULT_ROOM, "", 0))))
    case _ => None
  }

  function JoinStep(s: Server, hd: Handler, c: Choice): Action {
    match hd.pc
    case JName(room) =>
      if room == "" then To(hd, Reply)
      else (match ByFd(s.registry, hd.fd)
            case None => To(hd, Reply)
            case Some(n) => To(hd, JRoom(room, n.username)))
    case JRoom(room, who) =>
      (match ByFd(s.registry, hd.fd)
       case None => To(hd, Bye(hd))
       case Some(n) => To(hd, if n.room == room then Reply else JLeave(room, who, n.room)))
    case JLeave(room, who, left) =>
      Some((hd.(pc := JSet(room, who, left)), Enqueue(Event(Leave, hd.sid, who, left, "", 0))))
    case JSet(room, who, left) =>
      var kept := Clip(room, MAX_ROOM_NAME_LEN - 1);
      Some((hd.(pc := JReply(room, who, left), home := kept), Relocate(hd.fd, kept)))
    case JReply(room, who, left) => To(hd, JFormat(room, who, left))
    case JFormat(room, who, left) =>
      To(hd, if HistoryFits(s.rooms, room) then JHistory(room, who, left) else JPush(room, who, left))
    case JHistory(room, who, left) => To(hd, JPush(room, who, left))
    case JPush(room, who, left) =>
      Some((hd.(pc := Reply), Enqueue(Event(Join, hd.sid, who, room, "", 0))))
    case _ => None
  }

  function MsgStep(s: Server, hd: Handler, c: Choice): Action {
    match hd.pc
    case MName(text) =>
      (match ByFd(s.registry, hd.fd)
       case None => To(hd, Reply)
       case Some(n) => To(hd, MRoom(text, n.username)))
    case MRoom(text, who) =>
      (match ByFd(s.registry, hd.fd)
       case None => To(hd, Bye(hd))
       case Some(n) => To(hd, if text == "" then Reply else MHistory(text, who, n.room)))
    case MHistory(text, who, room) =>
      if c.Now? then
        Some((hd.(pc := MPush(text, who, room, c.time)), Record(ChatRecord(hd.sid, who, room, text, c.time))))
      else None
    case MPush(text, who, room, time) =>
      Some((hd.(pc := Reply), Enqueue(Event(Chat, hd.sid, who, room, text, time))))
    case _ => None
  }

  /** The commands that only look things up and send: PM, LIST and HISTORY. */
  function QueryStep(s: Server, hd: Handler, c: Choice): Action {
    var own := ByFd(s.registry, hd.fd);
    match hd.pc
    case PName(target, text) =>
      if own.None? || target == "" || text == "" || own.value.username == target then To(hd, Reply)
      else To(hd, PLookup(target, own.value.username, text))
    case PLookup(target, who, text) =>
      (match ByName(s.registry, target)
       case None => To(hd, Reply)
       case Some(n) => To(hd, if n.fd < 0 then Reply else PSend(target, who, text, n.fd, n.sid)))
    case PSend(_, _, _, _, _) => To(hd, Reply)
    case LName => To(hd, if own.None? then Reply else LBuild)
    case LBuild => To(hd, Reply)
    case HName => To(hd, if own.None? then Reply else HRoom)
    case HRoom => To(hd, if own.None? then Bye(hd) else HFormat(own.value.room))
    case HFormat(room) => To(hd, if HistoryFits(s.rooms, room) then HSend else Reply)
    case HSend => To(hd, Reply)
    case _ => None
  }

  function KickStep(s: Server, hd: Handler, c: Choice): Action {
    var own := ByFd(s.registry, hd.fd);
    match hd.pc
    case KFlag(target) => To(hd, if own.None? || !own.value.admin || target == "" then Reply else KName(target))
    case KName(target) => To(hd, if own.Some? && own.value.username == target then Reply else KLookup(target))
    case KLookup(target) =>
      (match ByName(s.registry, target)
       case None => To(hd, Reply)
       case Some(n) => To(hd, if n.fd < 0 then Reply else KSend(target, n.fd, n.sid)))
    case KSend(target, fd, peer) => To(hd, KShut(target, fd, peer))
    case KShut(target, fd, _) =>
      Some((hd.(pc := Reply), KickOut(KickRecord(hd.sid, hd.name, hd.pass, target, fd))))
    case _ => None
  }

  /** cmd_disconnect_client: LEAVE, then the registry, then close; then the counter.
      registry_remove unlinks the node under the lock and frees it afterwards. */
  function LeaveStep(s: Server, hd: Handler): Action {
    match hd.pc
    case BRoom =>
      (match ByFd(s.registry, hd.fd)
       case None => To(hd, BRemove)
       case Some(n) => To(hd, BPush(n.room)))
    case BPush(room) =>
      Some((hd.(pc := BRemove), Enqueue(Event(Leave, hd.sid, hd.user, room, "", 0))))
    case BRemove =>
      (match ByFd(s.registry, hd.fd)
       case None => To(hd, Closing)
       case Some(n) => Some((hd.(pc := BFree(n.sid)), Unregister(hd.fd))))
    case AFree(node) => Some((hd.(pc := Bye(hd)), Free(node)))
    case BFree(node) => Some((hd.(pc := Closing), Free(node)))
    case Closing => To(hd, Counting)
    case Counting => Some((hd.(pc := Gone), Uncount))
    case _ => None
  }

  function HandlerAction(env: Env, s: Server, hd: Handler, c: Choice): Action {
    if AuthPc(hd.pc) then AuthStep(env, s, hd, c)
    else if JoinPc(hd.pc) then JoinStep(s, hd, c)
    else if MsgPc(hd.pc) then MsgStep(s, hd, c)
    else if QueryPc(hd.pc) then QueryStep(s, hd, c)
    else if KickPc(hd.pc) then KickStep(s, hd, c)
    else if LeavePc(hd.pc) || EndPc(hd.pc) then LeaveStep(s, hd)
    else LoopStep(s, hd, c)
  }
}
