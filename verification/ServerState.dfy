/** The shared state of the running server and the places its threads can be in
    (src/server/server.c, src/server/commands.c, src/server/broadcaster.c). Every
    place is the point before one locked section, send, accept or close. */
module ServerState {
  import opened Common
  import opened Auth
  import opened Registry
  import opened MessageQueue
  import opened RoomManager

  /** What the server cannot change: the user records, the password digest and the
      rendering of times. */
  datatype Env = Env(records: seq<UserRecord>, digest: string -> string, stamp: int -> string)

  /** Where a handler thread is. The arguments are the local variables of the source
      that are live there; peer and node are the sessions whose descriptor was looked up and
      whose node is being freed. */
  datatype Pc =
    // client_handler
    | Top | Recv | Reply | Refuse
    // cmd_handle_auth
    | AVerify(user: string, password: string) | AExists(who: string) | AFlag(who: string)
    | AAdd(who: string, flag: bool)
    | AWelcome(who: string) | AUndo(who: string) | AFree(node: nat) | AJoined(who: string)
    | AFormat(who: string) | AHistory(who: string) | AOkay(who: string) | APush(who: string)
    // cmd_handle_join_room
    | JName(room: string) | JRoom(room: string, who: string)
    | JLeave(room: string, who: string, left: string) | JSet(room: string, who: string, left: string)
    | JReply(room: string, who: string, left: string) | JFormat(room: string, who: string, left: string)
    | JHistory(room: string, who: string, left: string) | JPush(room: string, who: string, left: string)
    // cmd_handle_msg
    | MName(text: string) | MRoom(text: string, who: string)
    | MHistory(text: string, who: string, room: string) | MPush(text: string, who: string, room: string, time: int)
    // cmd_handle_pm
    | PName(target: string, text: string) | PLookup(target: string, who: string, text: string)
    | PSend(target: string, who: string, text: string, fd: int, peer: nat)
    // cmd_handle_list
    | LName | LBuild
    // cmd_handle_history
    | HName | HRoom | HFormat(room: string) | HSend
    // cmd_handle_kick
    | KFlag(target: string) | KName(target: string) | KLookup(target: string)
    | KSend(target: string, fd: int, peer: nat) | KShut(target: string, fd: int, peer: nat)
    // disconnect_client
    | BRoom | BPush(room: string) | BRemove | BFree(node: nat) | Closing | Counting | Gone

  predicate AuthPc(pc: Pc) {
    pc.AVerify? || pc.AExists? || pc.AFlag? || pc.AAdd? || AddedPc(pc)
  }

  predicate AddedPc(pc: Pc) {
    pc.AWelcome? || pc.AUndo? || pc.AJoined? || pc.AFormat? || pc.AHistory? || pc.AOkay? || pc.APush?
  }

  predicate JoinPc(pc: Pc) {
    pc.JName? || pc.JRoom? || pc.JLeave? || SwitchPc(pc)
  }

  predicate SwitchPc(pc: Pc) {
    pc.JSet? || pc.JReply? || pc.JFormat? || pc.JHistory? || pc.JPush?
  }

  predicate MsgPc(pc: Pc) {
    pc.MName? || pc.MRoom? || pc.MHistory? || pc.MPush?
  }

  predicate QueryPc(pc: Pc) {
    || pc.PName? || pc.PLookup? || pc.PSend? || pc.LName? || pc.LBuild?
    || pc.HName? || pc.HRoom? || pc.HFormat? || pc.HSend?
  }

  predicate KickPc(pc: Pc) {
    pc.KFlag? || pc.KName? || pc.KLookup? || pc.KSend? || pc.KShut?
  }

  predicate LeavePc(pc: Pc) {
    pc.BRoom? || pc.BPush? || pc.BRemove?
  }

  /** registry_remove has unlinked the node and is about to free it. */
  predicate FreeingPc(pc: Pc) {
    pc.AFree? || pc.BFree?
  }

  /** Nothing of the thread is left in the registry or in memory. */
  predicate ReleasedPc(pc: Pc) {
    pc.Closing? || pc.Counting? || pc.Gone?
  }

  predicate EndPc(pc: Pc) {
    FreeingPc(pc) || ReleasedPc(pc)
  }

  /** One handler thread: the source's locals fd, authenticated and username, and the
      model's record of what it verified and registered. */
  datatype Handler = Handler(fd: int, pc: Pc, auth: bool, user: string,
                             name: string, pass: string, sid: nat, home: string, admin: bool)

  function NodeOf(hd: Handler): Entry {
    Entry(hd.sid, hd.fd, hd.name, hd.home, hd.admin)
  }

  /** The main thread: accept loop, then server_shutdown. */
  datatype Main =
    | MLoop | MAccept | MCheck(fd: int) | MReject(fd: int) | MDrop(fd: int) | MCount(fd: int)
    | MSpawn(fd: int) | MUnspawn(fd: int) | MUncount
    | MStop | MListener | MSignal | MSentinel | MWait | MDone

  /** A traversal of registry_foreach: the sessions listed when it began, those
      visited so far (the last one is the cursor) with the room each was in at its
      visit, and those removed ahead of the cursor. */
  datatype Tour = Tour(start: seq<nat>, seen: seq<nat>, rooms: seq<string>, skipped: set<nat>)

  /** The broadcaster thread; idx is the position of msg in the log of accepted
      events. CStray: the thread read a node that was freed while the lock was
      released; what it does from there on is not modelled. */
  datatype Caster =
    | CTop | CPop | CBuild(idx: nat, msg: Event) | CFirst(idx: nat, msg: Event)
    | CSend(idx: nat, msg: Event, tour: Tour, snap: Entry) | CNext(idx: nat, msg: Event, tour: Tour)
    | CExit | CStray

  /** One line that the broadcaster got out: for which session, which event, the room
      the session was in when it was looked at, and the thread whose connection had
      the snapshot's descriptor at the send. */
  datatype Delivery = Delivery(sid: nat, idx: nat, room: string, to: Option<nat>)

  /** One call of room_history_add by a session. */
  datatype ChatRecord = ChatRecord(sid: nat, user: string, room: string, text: string, time: int)

  datatype KickRecord = KickRecord(sid: nat, admin: string, pass: string, target: string, fd: int)

  /** A node that registry_remove has unlinked: its fields, and where its link leads. */
  datatype Loose = Loose(entry: Entry, next: Option<nat>)

  /** unlinked keeps every node that was ever unlinked; freed says which are no longer
      memory of the program. */
  datatype Server = Server(
    running: bool, main: Main, active: int,
    handlers: seq<Handler>,
    registry: seq<Entry>, unlinked: map<nat, Loose>, freed: set<nat>,
    rooms: seq<Room>,
    queue: seq<Event>, shutdown: bool,
    caster: Caster,
    // model-only history
    sessions: seq<nat>, log: seq<Event>, popped: nat, late: nat,
    sent: seq<Delivery>, adds: seq<ChatRecord>, kicks: seq<KickRecord>)

  const INIT: Server := Server(
    true, MLoop, 0, [], [], map[], {}, [Room(DEFAULT_ROOM, [])], [], false, CTop, [], [], 0, 0, [], [], [])

  /** What the environment decides at a step: the call works, it fails, a line
      arrives, a connection arrives, or the clock says a time. */
  datatype Choice = Go | Fault | Line(line: string) | Conn(fd: int) | Now(time: int)
}
