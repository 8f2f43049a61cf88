/** Rooms and their message history (src/server/room_manager.c): a linked list of
    rooms, newest first, each with a ring buffer of its last messages. */
module RoomManager {
  import opened Common
  import opened ServerLines

  datatype HistoryEntry = HistoryEntry(username: string, stamp: string, content: string)

  /** A room as the sequence of the messages it remembers, oldest first. */
  datatype Room = Room(name: string, entries: seq<HistoryEntry>)

  function PosOfRoom(rs: seq<Room>, name: string): (i: nat)
    ensures i <= |rs| && (forall j :: 0 <= j < i ==> rs[j].name != name) && (i < |rs| ==> rs[i].name == name)
  {
    if rs == [] || rs[0].name == name then 0 else 1 + PosOfRoom(rs[1..], name)
  }

  function Find(rs: seq<Room>, name: string): Option<Room> {
    var i := PosOfRoom(rs, name);
    if i < |rs| then Some(rs[i]) else None
  }

  /** The last MAX_ROOM_HISTORY entries. */
  function Recent(es: seq<HistoryEntry>): seq<HistoryEntry> {
    if |es| <= MAX_ROOM_HISTORY then es else es[|es| - MAX_ROOM_HISTORY..]
  }

  /** room_find_or_create: None when a new room is needed and the table is full. The
      stored name of a new room is cut to its array; the search is not. */
  function Opened(rs: seq<Room>, name: string): Option<seq<Room>> {
    if PosOfRoom(rs, name) < |rs| then Some(rs)
    else if |rs| >= MAX_ROOMS then None
    else Some([Room(Clip(name, MAX_ROOM_NAME_LEN - 1), [])] + rs)
  }

  /** Where room_find_or_create leaves the room. */
  function OpenedPos(rs: seq<Room>, name: string): nat {
    if PosOfRoom(rs, name) < |rs| then PosOfRoom(rs, name) else 0
  }

  /** room_history_add */
  function Added(rs: seq<Room>, name: string, e: HistoryEntry): Option<seq<Room>> {
    match Opened(rs, name)
    case None => None
    case Some(os) =>
      var i := OpenedPos(rs, name);
      Some(os[i := Room(os[i].name, Recent(os[i].entries + [e]))])
  }

  function Rendered(e: HistoryEntry): string {
    e.username + "|" + e.stamp + "|" + e.content
  }

  /** The history payload: entries joined by two bars. */
  function Payload(es: seq<HistoryEntry>): string {
    if es == [] then "" else Rendered(es[0]) + PayloadTail(es[1..])
  }

  function PayloadTail(es: seq<HistoryEntry>): string {
    if es == [] then "" else "||" + Rendered(es[0]) + PayloadTail(es[1..])
  }

  lemma PayloadStep(es: seq<HistoryEntry>, i: nat)
    requires i < |es|
    ensures i == 0 ==> Payload(es) == Rendered(es[0]) + PayloadTail(es[1..])
    ensures PayloadTail(es[i..]) == "||" + Rendered(es[i]) + PayloadTail(es[i + 1..])
  {
    assert es[i..][1..] == es[i + 1..];
  }

  lemma PayloadEnds()
    ensures Payload([]) == "" && PayloadTail([]) == ""
  {
  }

  function Slot(start: nat, i: nat): (k: nat)
    ensures k < MAX_ROOM_HISTORY
    ensures start + i < MAX_ROOM_HISTORY ==> k == start + i
    ensures MAX_ROOM_HISTORY <= start + i < 2 * MAX_ROOM_HISTORY ==> k == start + i - MAX_ROOM_HISTORY
  {
    (start + i) % MAX_ROOM_HISTORY
  }

  lemma SlotShift(start: nat, i: nat)
    requires start < MAX_ROOM_HISTORY && i < MAX_ROOM_HISTORY
    ensures Slot((start + 1) % MAX_ROOM_HISTORY, i) == if i + 1 < MAX_ROOM_HISTORY then Slot(start, i + 1) else start
    ensures i + 1 < MAX_ROOM_HISTORY ==> Slot(start, i + 1) != start
  {
  }

  class RoomNode {
    const name: string
    const history: array<HistoryEntry>
    var count: nat
    var start: nat
    var next: RoomNode?
    ghost var entries: seq<HistoryEntry>

    /** Reading count slots from start, wrapping around, gives the entries in order. */
    ghost predicate Valid()
      reads this`count, this`start, this`entries, history
    {
      && history.Length == MAX_ROOM_HISTORY
      && |entries| == count <= MAX_ROOM_HISTORY && start < MAX_ROOM_HISTORY
      && (count < MAX_ROOM_HISTORY ==> start == 0)
      && forall i :: 0 <= i < count ==> entries[i] == history[Slot(start, i)]
    }

    constructor (name: string)
      ensures Valid() && entries == [] && this.name == name && next == null && fresh(history)
    {
      this.name := name;
      history := new HistoryEntry[MAX_ROOM_HISTORY](i => HistoryEntry("", "", ""));
      count, start, next, entries := 0, 0, null, [];
    }

    /** The ring-buffer half of room_history_add. */
    method AddEntry(e: HistoryEntry)
      requires Valid()
      modifies this`count, this`start, this`entries, history
      ensures Valid() && entries == Recent(old(entries) + [e])
    {
      hide Slot;
      ghost var was, s, n := entries, start, count;
      var idx;
      if count < MAX_ROOM_HISTORY {
        idx := count;
        count := count + 1;
      } else {
        idx := start;
        start := (start + 1) % MAX_ROOM_HISTORY;
      }
      history[idx] := e;
      entries := Recent(entries + [e]);
      if n == MAX_ROOM_HISTORY {
        forall i | 0 <= i < count ensures entries[i] == history[Slot(start, i)] {
          SlotShift(s, i);
        }
      }
    }
  }

  class Manager {
    var rooms: RoomNode?
    var roomCount: nat
    ghost var nodes: seq<RoomNode>

    ghost function Arrays(): set<object>
      reads this
    {
      set n | n in nodes :: n.history
    }

    ghost predicate Valid()
      reads this, nodes, Arrays()
    {
      && Linked()
      && (forall i, j :: 0 <= i < j < |nodes| ==> nodes[i].history != nodes[j].history)
      && (forall i :: 0 <= i < |nodes| ==> nodes[i].Valid())
    }

    ghost predicate Linked()
      reads this, nodes
    {
      && roomCount == |nodes| <= MAX_ROOMS
      && (forall i, j :: 0 <= i < j < |nodes| ==> nodes[i] != nodes[j])
      && (forall i, j :: 0 <= i && j == i + 1 && j < |nodes| ==> nodes[i].next == nodes[j])
      && (nodes != [] ==> nodes[|nodes| - 1].next == null)
      && rooms == (if nodes == [] then null else nodes[0])
    }

    ghost function At(i: nat): RoomNode?
      reads this
    {
      if i < |nodes| then nodes[i] else null
    }

    ghost function Contents(): (s: seq<Room>)
      reads this, nodes
      ensures |s| == |nodes|
      ensures forall i :: 0 <= i < |s| ==> s[i] == Room(nodes[i].name, nodes[i].entries)
    {
      seq(|nodes|, i requires 0 <= i < |nodes| reads this, nodes => Room(nodes[i].name, nodes[i].entries))
    }

    /** room_manager_init: the lobby exists from the start. */
    constructor ()
      ensures Valid() && Contents() == [Room(DEFAULT_ROOM, [])]
    {
      var lobby := new RoomNode(DEFAULT_ROOM);
      rooms, roomCount, nodes := lobby, 1, [lobby];
    }

    method Search(name: string) returns (node: RoomNode?)
      requires Linked()
      ensures node == At(PosOfRoom(Contents(), name))
    {
      node := rooms;
      ghost var i := 0;
      while node != null && node.name != name
        invariant 0 <= i <= |nodes| && node == At(i)
        invariant forall j :: 0 <= j < i ==> Contents()[j].name != name
        decreases |nodes| - i
      {
        node := node.next;
        i := i + 1;
      }
    }

    /** room_find_or_create; i is the position of the room it returns. */
    method FindOrCreate(name: string) returns (node: RoomNode?, ghost i: nat)
      requires Valid()
      modifies this
      ensures Valid()
      ensures node == null <==> Opened(old(Contents()), name) == None
      ensures node == null ==> Contents() == old(Contents())
      ensures node != null ==> Opened(old(Contents()), name) == Some(Contents())
      ensures node != null ==> i == OpenedPos(old(Contents()), name) < |nodes| && nodes[i] == node
      ensures node != null ==> node in old(nodes) || (fresh(node) && fresh(node.history))
    {
      hide Linked, RoomNode.Valid;
      node := Search(name);
      i := PosOfRoom(Contents(), name);
      CountIsLength();
      if node != null {
        return;
      }
      if roomCount >= MAX_ROOMS {
        return;
      }
      node := new RoomNode(Clip(name, MAX_ROOM_NAME_LEN - 1));
      Prepend(node);
      i := 0;
    }

    lemma CountIsLength()
      requires Linked()
      ensures roomCount == |nodes|
    {
    }

    method Prepend(node: RoomNode)
      requires Valid() && |nodes| < MAX_ROOMS
      requires node.Valid() && node !in nodes && node.history !in Arrays() && node.next == null
      modifies this, node`next
      ensures Valid() && nodes == [node] + old(nodes)
      ensures Contents() == [Room(node.name, node.entries)] + old(Contents())
    {
      hide RoomNode.Valid;
      ghost var was := nodes;
      node.next := rooms;
      rooms := node;
      roomCount := roomCount + 1;
      nodes := [node] + nodes;
      assert forall i, j :: 0 <= j && i == j + 1 && i < |nodes| ==> nodes[i] == was[j];
    }

    /** Adding to one room leaves every other room alone. */
    method AddAt(node: RoomNode, e: HistoryEntry, ghost i: nat)
      requires Valid() && i < |nodes| && nodes[i] == node
      modifies node`count, node`start, node`entries, node.history
      ensures Valid()
      ensures Contents() == old(Contents())[i := Room(node.name, Recent(old(Contents())[i].entries + [e]))]
    {
      node.AddEntry(e);
    }

    /** room_history_add */
    method HistoryAdd(name: string, e: HistoryEntry) returns (rc: Status)
      requires Valid()
      modifies this, nodes, Arrays()
      ensures Valid()
      ensures rc == if Added(old(Contents()), name, e).Some? then Ok else ErrFull
      ensures Contents() == if rc == Ok then Added(old(Contents()), name, e).value else old(Contents())
    {
      var rn; ghost var i;
      rn, i := FindOrCreate(name);
      if rn == null {
        return ErrFull;
      }
      AddAt(rn, e, i);
      rc := Ok;
    }

    /** room_history_format: the payload is produced exactly when it fits the buffer
        with its terminator; an unknown room gives an empty one. */
    method HistoryFormat(name: string, buflen: nat) returns (rc: Status, buf: string)
      requires Valid()
      ensures var es := HistoryOf(Contents(), name);
              buflen > 0 ==> (rc == Ok <==> |Payload(es)| < buflen) && (rc == Ok ==> buf == Payload(es))
      ensures rc != Ok ==> rc == Err
    {
      hide Payload, PayloadTail, Recent, Linked, RoomNode.Valid, Rendered, PosOfRoom;
      PayloadEnds();
      if buflen == 0 {
        return Err, "";
      }
      var cur := Search(name);
      if cur == null {
        return Ok, "";
      }
      ghost var es := cur.entries;
      assert HistoryOf(Contents(), name) == es;
      rc, buf := FormatEntries(cur, buflen);
    }

    method FormatEntries(cur: RoomNode, buflen: nat) returns (rc: Status, buf: string)
      requires cur.Valid() && buflen > 0
      ensures rc == Ok <==> |Payload(cur.entries)| < buflen
      ensures rc == Ok ==> buf == Payload(cur.entries)
      ensures rc != Ok ==> rc == Err
    {
      hide Payload, PayloadTail;
      PayloadEnds();
      ghost var es := cur.entries;
      buf := "";
      var first := true;
      for i := 0 to cur.count
        invariant first == (i == 0) && |buf| < buflen
        invariant i == 0 ==> buf == ""
        invariant i > 0 ==> Payload(es) == buf + PayloadTail(es[i..])
      {
        var e := cur.history[(cur.start + i) % MAX_ROOM_HISTORY];
        assert e == es[i];
        var piece := if first then Rendered(e) else "||" + Rendered(e);
        first := false;
        PayloadStep(es, i);
        assert Payload(es) == buf + (piece + PayloadTail(es[i + 1..]));
        if |piece| >= buflen - |buf| {
          return Err, buf;
        }
        buf := buf + piece;
      }
      assert es[cur.count..] == [];
      rc := Ok;
    }

    /** room_history_send_to_client up to the call of the send function: a line is
        handed to it exactly when the payload has at most 2038 characters. */
    method HistoryLine(name: string) returns (rc: Status, line: string)
      requires Valid()
      ensures rc == Ok <==> |Payload(HistoryOf(Contents(), name))| <= MAX_LINE_LEN - 10
      ensures rc == Ok ==> line == ResponseLine(RoomHistory(Payload(HistoryOf(Contents(), name))))
    {
      hide Payload;
      var payload;
      rc, payload := HistoryFormat(name, MAX_LINE_LEN);
      if rc != Ok {
        return Err, "";
      }
      HistoryLineLength(payload);
      rc, line := BuildResponse(MAX_LINE_LEN, RoomHistory(payload));
    }
  }

  lemma HistoryLineLength(payload: string)
    ensures |ResponseLine(RoomHistory(payload))| == |payload| + 9
  {
  }

  function HistoryOf(rs: seq<Room>, name: string): seq<HistoryEntry> {
    match Find(rs, name)
    case Some(r) => r.entries
    case None => []
  }
}
