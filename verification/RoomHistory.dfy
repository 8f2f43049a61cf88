/** What the room table holds after any run of additions, and what the history
    payload says (src/server/room_manager.c). */
module RoomHistory {
  import opened Common
  import opened RoomManager

  datatype Addition = Addition(room: string, entry: HistoryEntry)

  /** The table after a run of room_history_add calls on a fresh manager. */
  function Table(adds: seq<Addition>): seq<Room> {
    if adds == [] then [Room(DEFAULT_ROOM, [])]
    else
      var rs := Table(adds[..|adds| - 1]);
      var a := adds[|adds| - 1];
      var r := Added(rs, a.room, a.entry);
      if r.Some? then r.value else rs
  }

  /** Everything that was ever offered to one room, oldest first. */
  function Offered(adds: seq<Addition>, room: string): seq<HistoryEntry> {
    if adds == [] then []
    else
      var a := adds[|adds| - 1];
      Offered(adds[..|adds| - 1], room) + if a.room == room then [a.entry] else []
  }

  predicate DistinctRooms(rs: seq<Room>) {
    forall i, j :: 0 <= i < j < |rs| ==> rs[i].name != rs[j].name
  }

  predicate ShortNames(adds: seq<Addition>) {
    forall i :: 0 <= i < |adds| ==> |adds[i].room| < MAX_ROOM_NAME_LEN
  }

  lemma RecentOfRecent(es: seq<HistoryEntry>, e: HistoryEntry)
    ensures Recent(Recent(es) + [e]) == Recent(es + [e])
  {
  }

  lemma PosOfRoomIs(rs: seq<Room>, i: nat)
    requires DistinctRooms(rs) && i < |rs|
    ensures PosOfRoom(rs, rs[i].name) == i
  {
  }

  lemma FindInFront(r: Room, rs: seq<Room>, other: string)
    ensures Find([r] + rs, other) == if r.name == other then Some(r) else Find(rs, other)
  {
    assert ([r] + rs)[1..] == rs;
  }

  lemma FindUpdated(rs: seq<Room>, i: nat, r: Room, other: string)
    requires DistinctRooms(rs) && i < |rs| && r.name == rs[i].name
    ensures Find(rs[i := r], other) == if r.name == other then Some(r) else Find(rs, other)
  {
    var ts := rs[i := r];
    assert forall j :: 0 <= j < |rs| ==> ts[j].name == rs[j].name;
    PosOfRoomIs(ts, i);
    var j, k := PosOfRoom(ts, other), PosOfRoom(rs, other);
    assert j == k;
  }

  /** One addition changes the history of its room only. */
  lemma AddedFind(rs: seq<Room>, name: string, e: HistoryEntry, other: string)
    requires |name| < MAX_ROOM_NAME_LEN && DistinctRooms(rs) && Added(rs, name, e).Some?
    ensures var ts := Added(rs, name, e).value;
            && DistinctRooms(ts) && |rs| <= |ts| && (|ts| <= MAX_ROOMS || |ts| == |rs|)
            && (other == name ==> Find(ts, name) == Some(Room(name, Recent(HistoryOf(rs, name) + [e]))))
            && (other != name ==> Find(ts, other) == Find(rs, other))
  {
    hide Recent;
    var ts := Added(rs, name, e).value;
    var i := PosOfRoom(rs, name);
    if i == |rs| {
      var r := Room(name, Recent([] + [e]));
      assert ts == [r] + rs;
      FindInFront(r, rs, other);
    } else {
      FindUpdated(rs, i, ts[i], other);
    }
  }

  lemma Refused(rs: seq<Room>, name: string, e: HistoryEntry)
    ensures Added(rs, name, e) == None <==> |rs| >= MAX_ROOMS && Find(rs, name) == None
  {
  }

  /** Refinement over every run of additions with names that fit their array: room
      names stay unique, there are at most MAX_ROOMS, the lobby is always there, and
      a room that exists shows exactly the last MAX_ROOM_HISTORY entries ever offered
      to it, oldest first. A room that does not exist was never offered anything, or
      the table is full. */
  lemma {:induction false} TableRefines(adds: seq<Addition>, room: string)
    requires ShortNames(adds)
    ensures DistinctRooms(Table(adds)) && 1 <= |Table(adds)| <= MAX_ROOMS
    ensures Find(Table(adds), DEFAULT_ROOM).Some?
    ensures match Find(Table(adds), room)
            case Some(r) => r == Room(room, Recent(Offered(adds, room)))
            case None => Offered(adds, room) == [] || |Table(adds)| == MAX_ROOMS
  {
    hide Recent, Added, Find, DistinctRooms;
    if adds == [] {
      JustLobby(room);
    } else {
      var n := |adds| - 1;
      var a, rs := adds[n], Table(adds[..n]);
      TableRefines(adds[..n], room);
      TableRefines(adds[..n], a.room);
      Refused(rs, a.room, a.entry);
      assert a.room != room ==> Offered(adds, room) == Offered(adds[..n], room);
      if Added(rs, a.room, a.entry).Some? {
        AddedFind(rs, a.room, a.entry, room);
        AddedFind(rs, a.room, a.entry, DEFAULT_ROOM);
        RecentOfRecent(Offered(adds[..n], room), a.entry);
      }
    }
  }

  lemma JustLobby(room: string)
    ensures DistinctRooms(Table([])) && Find(Table([]), DEFAULT_ROOM).Some?
    ensures Find(Table([]), room) == if room == DEFAULT_ROOM then Some(Room(room, [])) else None
    ensures Recent([]) == []
  {
  }

  /** Without the length bound the names need not stay unique: the search compares
      the full name, the node stores the cut one. They stay unique exactly when the
      name fits or its cut form is new. */
  lemma LongNames(rs: seq<Room>, name: string, e: HistoryEntry)
    requires DistinctRooms(rs) && (forall r :: r in rs ==> |r.name| < MAX_ROOM_NAME_LEN)
    requires Added(rs, name, e).Some?
    ensures DistinctRooms(Added(rs, name, e).value)
            <==> |name| < MAX_ROOM_NAME_LEN || Find(rs, Clip(name, MAX_ROOM_NAME_LEN - 1)) == None
  {
    var ts := Added(rs, name, e).value;
    var cut := Clip(name, MAX_ROOM_NAME_LEN - 1);
    if |name| < MAX_ROOM_NAME_LEN {
      AddedFind(rs, name, e, name);
    } else {
      assert PosOfRoom(rs, name) == |rs|;
      var k := PosOfRoom(rs, cut);
      assert ts[0].name == cut && (k < |rs| ==> ts[k + 1] == rs[k]);
      assert forall i, j :: 0 < i && j == i - 1 && i < |ts| ==> ts[i] == rs[j];
    }
  }

  predicate BarFree(e: HistoryEntry) {
    '|' !in e.username && '|' !in e.stamp && '|' !in e.content
  }

  /** What can follow a field: nothing, or text that starts with a bar. */
  predicate AtBar(t: string) {
    t == "" || t[0] == '|'
  }

  lemma FieldIsPrefix(a: string, x: string, b: string, y: string)
    requires '|' !in a && '|' !in b && AtBar(x) && AtBar(y)
    requires a + x == b + y
    ensures a == b && x == y
  {
    var s := a + x;
    assert IndexOf(s, '|') == |a| by { FieldEnds(a, x); }
    assert IndexOf(b + y, '|') == |b| by { FieldEnds(b, y); }
    assert a == s[..|a|] == b && x == s[|a|..] == y;
  }

  lemma FieldEnds(a: string, x: string)
    requires '|' !in a && AtBar(x)
    ensures IndexOf(a + x, '|') == |a|
  {
    if x == "" {
      assert a + x == a;
      IndexOfAbsent(a, '|');
    } else {
      assert a + x == a + ['|'] + x[1..];
      IndexOfSplit(a, '|', x[1..]);
    }
  }

  lemma BarTail(x: string, y: string)
    requires "|" + x == "|" + y
    ensures x == y
  {
    assert x == ("|" + x)[1..];
    assert y == ("|" + y)[1..];
  }

  lemma RenderedPrefix(d: HistoryEntry, x: string, e: HistoryEntry, y: string)
    requires BarFree(d) && BarFree(e) && AtBar(x) && AtBar(y)
    requires Rendered(d) + x == Rendered(e) + y
    ensures d == e && x == y
  {
    var dx, ex := d.content + x, e.content + y;
    var ds, es := d.stamp + ("|" + dx), e.stamp + ("|" + ex);
    assert Rendered(d) + x == d.username + ("|" + ds);
    assert Rendered(e) + y == e.username + ("|" + es);
    FieldIsPrefix(d.username, "|" + ds, e.username, "|" + es);
    BarTail(ds, es);
    FieldIsPrefix(d.stamp, "|" + dx, e.stamp, "|" + ex);
    BarTail(dx, ex);
    FieldIsPrefix(d.content, x, e.content, y);
  }

  lemma TailAtBar(es: seq<HistoryEntry>)
    ensures AtBar(PayloadTail(es)) && (es != [] ==> PayloadTail(es) != "")
  {
  }

  lemma {:induction false} TailInjective(ds: seq<HistoryEntry>, es: seq<HistoryEntry>)
    requires forall d :: d in ds + es ==> BarFree(d)
    requires PayloadTail(ds) == PayloadTail(es)
    ensures ds == es
    decreases |ds|, 1
  {
    TailAtBar(ds);
    TailAtBar(es);
    if ds != [] && es != [] {
      var x, y := Rendered(ds[0]) + PayloadTail(ds[1..]), Rendered(es[0]) + PayloadTail(es[1..]);
      assert PayloadTail(ds) == "|" + ("|" + x);
      assert PayloadTail(es) == "|" + ("|" + y);
      BarTail("|" + x, "|" + y);
      BarTail(x, y);
      HeadInjective(ds, es);
    }
  }

  lemma HeadInjective(ds: seq<HistoryEntry>, es: seq<HistoryEntry>)
    requires ds != [] && es != [] && forall d :: d in ds + es ==> BarFree(d)
    requires Rendered(ds[0]) + PayloadTail(ds[1..]) == Rendered(es[0]) + PayloadTail(es[1..])
    ensures ds == es
    decreases |ds|, 0
  {
    TailAtBar(ds[1..]);
    TailAtBar(es[1..]);
    RenderedPrefix(ds[0], PayloadTail(ds[1..]), es[0], PayloadTail(es[1..]));
    TailInjective(ds[1..], es[1..]);
    assert ds == [ds[0]] + ds[1..] && es == [es[0]] + es[1..];
  }

  /** The payload determines the history: two histories whose fields hold no bar and
      that render alike are the same. */
  lemma PayloadInjective(ds: seq<HistoryEntry>, es: seq<HistoryEntry>)
    requires forall d :: d in ds + es ==> BarFree(d)
    requires Payload(ds) == Payload(es)
    ensures ds == es
  {
    if ds != [] && es != [] {
      HeadInjective(ds, es);
    }
  }
}
