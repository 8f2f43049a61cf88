/** The server as a transition system: any handler, the main thread or the
    broadcaster takes the next step, in any order. */
module ServerSteps {
  import opened Common
  import opened Chains
  import opened Registry
  import opened MessageQueue
  import RM = RoomManager
  import opened ServerLines
  import opened ServerState
  import opened Handlers

  datatype Step =
    | HandlerStep(h: nat, c: Choice)
    | MainStep(c: Choice)
    | CasterStep(c: Choice)
    | Signal

  function Cursor(t: Tour): nat {
    if t.seen == [] then 0 else t.seen[|t.seen| - 1]
  }

  function Visit(t: Tour, e: Entry): Tour {
    t.(seen := t.seen + [e.sid], rooms := t.rooms + [e.room])
  }

  predicate Touring(c: Caster) {
    c.CSend? || c.CNext?
  }

  function WithTour(c: Caster, t: Tour): Caster
    requires Touring(c)
  {
    match c
    case CSend(i, m, _, snap) => CSend(i, m, t, snap)
    case CNext(i, m, _) => CNext(i, m, t)
  }

  /** The links that unlinked nodes have kept. */
  function Links(unlinked: map<nat, Loose>): map<nat, Option<nat>> {
    map k | k in unlinked :: unlinked[k].next
  }

  /** The node that the link of node c leads to. */
  function NextOf(s: Server, c: nat): Option<nat> {
    Succ(Sids(s.registry), Links(s.unlinked), c)
  }

  /** The nodes that a traversal at node c would meet from now on. */
  function Way(s: Server, c: nat): seq<nat> {
    Chain(Sids(s.registry), Links(s.unlinked), c)
  }

  /** What the memory of node k holds, unless it has been freed. */
  function NodeAt(s: Server, k: nat): Option<Entry> {
    if BySid(s.registry, k).Some? then BySid(s.registry, k)
    else if k in s.unlinked then Some(s.unlinked[k].entry)
    else None
  }

  /** The first entry with the descriptor is unlinked and keeps its link. */
  function Loosened(s: Server, fd: int): map<nat, Loose> {
    match ByFd(s.registry, fd)
    case None => s.unlinked
    case Some(n) => s.unlinked[n.sid := Loose(n, NextOf(s, n.sid))]
  }

  /** What unlinking node x does to the record of a traversal: it is skipped if the
      traversal would have met it and now will not. */
  function Bypass(s: Server, t: Server, x: nat): Caster {
    if Touring(s.caster) && x in Way(s, Cursor(s.caster.tour)) && x !in Way(t, Cursor(s.caster.tour)) then
      WithTour(s.caster, s.caster.tour.(skipped := s.caster.tour.skipped + {x}))
    else s.caster
  }

  /** The broadcaster is where it was; at most the record of removed nodes has grown. */
  predicate SameTour(c: Caster, d: Caster) {
    if !Touring(c) then d == c
    else
      && Touring(d) && (c.CSend? <==> d.CSend?) && d.idx == c.idx && d.msg == c.msg
      && d.tour.start == c.tour.start && d.tour.seen == c.tour.seen && d.tour.rooms == c.tour.rooms
      && c.tour.skipped <= d.tour.skipped
      && (c.CSend? ==> d.snap == c.snap)
  }

  /** registry_remove up to the release of the lock. */
  function Unlink(s: Server, fd: int): Server {
    var t := s.(registry := Removed(s.registry, fd), unlinked := Loosened(s, fd));
    match ByFd(s.registry, fd)
    case None => t
    case Some(n) => t.(caster := Bypass(s, t, n.sid))
  }

  function Remembered(env: Env, rooms: seq<RM.Room>, c: ChatRecord): seq<RM.Room> {
    match RM.Added(rooms, c.room, RM.HistoryEntry(c.user, env.stamp(c.time), c.text))
    case None => rooms
    case Some(rs) => rs
  }

  /** mq_push */
  function Pushed(s: Server, e: Event): Server {
    if s.shutdown then s else s.(queue := s.queue + [e], log := s.log + [e])
  }

  function Apply(env: Env, s: Server, h: nat, eff: Effect): Server {
    match eff
    case Quiet => s
    case Register(e) => s.(registry := [e] + s.registry, sessions := s.sessions + [h])
    case Unregister(fd) => Unlink(s, fd)
    case Free(node) => s.(freed := s.freed + {node})
    case Relocate(fd, room) => s.(registry := Moved(s.registry, fd, room))
    case Enqueue(e) => Pushed(s, e)
    case Record(c) => s.(adds := s.adds + [c], rooms := Remembered(env, s.rooms, c))
    case KickOut(k) => s.(kicks := s.kicks + [k])
    case Uncount => s.(active := if s.active > 0 then s.active - 1 else s.active)
  }

  function HandlerNext(env: Env, s: Server, h: nat, c: Choice): Option<Server> {
    if h >= |s.handlers| then None
    else match HandlerAction(env, s, s.handlers[h], c)
      case None => None
      case Some((hd, eff)) => Some(Apply(env, s, h, eff).(handlers := s.handlers[h := hd]))
  }

  predicate HoldsFd(hd: Handler) {
    !hd.pc.Counting? && !hd.pc.Gone?
  }

  /** The thread that has the descriptor open. */
  function HolderOf(hs: seq<Handler>, fd: int): (h: Option<nat>)
    ensures h.Some? ==> h.value < |hs| && HoldsFd(hs[h.value]) && hs[h.value].fd == fd
    ensures h == None ==> forall g :: 0 <= g < |hs| && HoldsFd(hs[g]) ==> hs[g].fd != fd
  {
    if hs == [] then None
    else
      var n := |hs| - 1;
      if HoldsFd(hs[n]) && hs[n].fd == fd then Some(n) else HolderOf(hs[..n], fd)
  }

  function MainFd(m: Main): Option<int> {
    match m
    case MCheck(fd) => Some(fd)
    case MReject(fd) => Some(fd)
    case MDrop(fd) => Some(fd)
    case MCount(fd) => Some(fd)
    case MSpawn(fd) => Some(fd)
    case MUnspawn(fd) => Some(fd)
    case _ => None
  }

  /** accept() returns a descriptor that nobody has open. */
  ghost predicate FdFree(s: Server, fd: int) {
    fd >= 0 && forall h :: 0 <= h < |s.handlers| && HoldsFd(s.handlers[h]) ==> s.handlers[h].fd != fd
  }

  ghost function MainNext(s: Server, c: Choice): Option<Server> {
    match s.main
    case MLoop => Some(s.(main := if s.running then MAccept else MStop))
    case MAccept =>
      if c.Conn? && FdFree(s, c.fd) then Some(s.(main := MCheck(c.fd)))
      else if c.Fault? then Some(s.(main := MLoop))
      else None
    case MCheck(fd) => Some(s.(main := if s.active >= MAX_CLIENTS then MReject(fd) else MCount(fd)))
    case MReject(fd) => Some(s.(main := MDrop(fd)))
    case MDrop(_) => Some(s.(main := MLoop))
    case MCount(fd) => Some(s.(main := MSpawn(fd), active := s.active + 1))
    case MSpawn(fd) =>
      if c.Go? then
        Some(s.(main := MLoop, handlers := s.handlers + [Handler(fd, Top, false, "", "", "", 0, "", false)]))
      else Some(s.(main := MUnspawn(fd)))
    case MUnspawn(_) => Some(s.(main := MUncount))
    case MUncount => Some(s.(main := MLoop, active := if s.active > 0 then s.active - 1 else s.active))
    case MStop => Some(s.(main := MListener, running := false))
    case MListener => Some(s.(main := MSignal))
    case MSignal => Some(s.(main := MSentinel, shutdown := true))
    case MSentinel => Some(Pushed(s, Event(Shutdown, 0, "", "", "", 0)).(main := MWait))
    case MWait => if s.caster.CExit? then Some(s.(main := MDone)) else None
    case MDone => None
  }

  /** The line that the broadcaster builds for an event. */
  function EventLine(env: Env, e: Event): string {
    ResponseLine(match e.kind
                 case Chat => Broadcast(e.user, env.stamp(e.time), e.room, e.text)
                 case Join => UserJoin(e.user, e.room)
                 case _ => UserLeft(e.user, e.room))
  }

  function CasterNext(env: Env, s: Server, c: Choice): Option<Server> {
    match s.caster
    case CTop => Some(s.(caster := if s.running then CPop else CExit))
    case CPop =>
      if s.queue != [] then
        Some(s.(caster := CBuild(s.popped, s.queue[0]), queue := s.queue[1..], popped := s.popped + 1,
                late := if s.running then s.late else s.late + 1))
      else if s.shutdown then Some(s.(caster := CExit))
      else None
    case CBuild(idx, msg) =>
      Some(s.(caster := if msg.kind == Shutdown then CExit
                        else if |EventLine(env, msg)| < MAX_LINE_LEN then CFirst(idx, msg)
                        else CTop))
    case CFirst(idx, msg) =>
      if s.registry == [] then Some(s.(caster := CTop))
      else
        var e := s.registry[0];
        Some(s.(caster := CSend(idx, msg, Tour(Sids(s.registry), [e.sid], [e.room], {}), e)))
    case CSend(idx, msg, tour, snap) =>
      if snap.room != msg.room then Some(s.(caster := CNext(idx, msg, tour)))
      else if c.Go? then
        var d := Delivery(snap.sid, idx, snap.room, HolderOf(s.handlers, snap.fd));
        Some(s.(caster := CNext(idx, msg, tour), sent := s.sent + [d]))
      else Some(s.(caster := CTop))
    case CNext(idx, msg, tour) =>
      if Cursor(tour) in s.freed then Some(s.(caster := CStray))
      else (match NextOf(s, Cursor(tour))
            case None => Some(s.(caster := CTop))
            case Some(y) =>
              if y in s.freed || NodeAt(s, y) == None then Some(s.(caster := CStray))
              else
                var e := NodeAt(s, y).value;
                Some(s.(caster := CSend(idx, msg, Visit(tour, e), e))))
    case CExit => None
    case CStray => None
  }

  ghost function Next(env: Env, s: Server, step: Step): Option<Server> {
    match step
    case HandlerStep(h, c) => HandlerNext(env, s, h, c)
    case MainStep(c) => MainNext(s, c)
    case CasterStep(c) => CasterNext(env, s, c)
    case Signal => Some(s.(running := false))
  }

  /** The state after a run from the start, if every step of it is possible. */
  ghost function Exec(env: Env, steps: seq<Step>): Option<Server> {
    if steps == [] then Some(INIT)
    else match Exec(env, steps[..|steps| - 1])
      case None => None
      case Some(s) => Next(env, s, steps[|steps| - 1])
  }

  ghost predicate Reachable(env: Env, s: Server) {
    exists steps :: Exec(env, steps) == Some(s)
  }
}
