/** The registry of online clients (src/server/client_registry.c): a singly linked
    list, newest client first, and the sequence it stands for. */
module Registry {
  import opened Common
  import opened Chains

  /** One registered client. sid numbers the registration and exists in the model only. */
  datatype Entry = Entry(sid: nat, fd: int, username: string, room: string, admin: bool)

  /** Position of the first entry with that descriptor, or the length. */
  function PosOfFd(es: seq<Entry>, fd: int): (i: nat)
    ensures i <= |es| && (forall j :: 0 <= j < i ==> es[j].fd != fd) && (i < |es| ==> es[i].fd == fd)
  {
    if es == [] || es[0].fd == fd then 0 else 1 + PosOfFd(es[1..], fd)
  }

  function PosOfName(es: seq<Entry>, name: string): (i: nat)
    ensures i <= |es| && (forall j :: 0 <= j < i ==> es[j].username != name) && (i < |es| ==> es[i].username == name)
  {
    if es == [] || es[0].username == name then 0 else 1 + PosOfName(es[1..], name)
  }

  function ByFd(es: seq<Entry>, fd: int): Option<Entry> {
    var i := PosOfFd(es, fd);
    if i < |es| then Some(es[i]) else None
  }

  function ByName(es: seq<Entry>, name: string): Option<Entry> {
    var i := PosOfName(es, name);
    if i < |es| then Some(es[i]) else None
  }

  /** registry_add: refused when full or when the name is taken, else put in front. */
  function AddResult(es: seq<Entry>, name: string): Status {
    if |es| >= MAX_CLIENTS then ErrFull
    else if ByName(es, name).Some? then ErrDuplicate
    else Ok
  }

  /** registry_remove: the first entry with the descriptor goes. */
  function Removed(es: seq<Entry>, fd: int): seq<Entry> {
    var i := PosOfFd(es, fd);
    if i < |es| then es[..i] + es[i + 1..] else es
  }

  /** registry_set_room */
  function Moved(es: seq<Entry>, fd: int, room: string): seq<Entry> {
    var i := PosOfFd(es, fd);
    if i < |es| then es[i := es[i].(room := room)] else es
  }

  /** The session numbers, in list order. */
  function Sids(es: seq<Entry>): (r: seq<nat>)
    ensures |r| == |es| && forall i :: 0 <= i < |r| ==> r[i] == es[i].sid
  {
    seq(|es|, i requires 0 <= i < |es| => es[i].sid)
  }

  /** Position of the session's node in the list, or the length. */
  function PosOfSid(es: seq<Entry>, sid: nat): (i: nat)
    ensures i <= |es| && (forall j :: 0 <= j < i ==> es[j].sid != sid) && (i < |es| ==> es[i].sid == sid)
  {
    if es == [] || es[0].sid == sid then 0 else 1 + PosOfSid(es[1..], sid)
  }

  function BySid(es: seq<Entry>, sid: nat): Option<Entry> {
    var i := PosOfSid(es, sid);
    if i < |es| then Some(es[i]) else None
  }

  lemma {:induction false} BehindAt(es: seq<Entry>, i: nat)
    requires i < |es| && PosOfSid(es, es[i].sid) == i
    ensures Behind(Sids(es), es[i].sid) == Sids(es[i + 1..])
  {
    assert Sids(es)[1..] == Sids(es[1..]);
    if i > 0 {
      BehindAt(es[1..], i - 1);
      assert es[1..][i - 1] == es[i] && es[1..][i..] == es[i + 1..];
    }
  }

  predicate DistinctNames(es: seq<Entry>) {
    forall i, j :: 0 <= i < j < |es| ==> es[i].username != es[j].username
  }

  lemma DistinctWithNew(e: Entry, es: seq<Entry>)
    requires DistinctNames(es) && forall j :: 0 <= j < |es| ==> es[j].username != e.username
    ensures DistinctNames([e] + es)
  {
  }

  lemma DistinctWithout(es: seq<Entry>, i: nat)
    requires DistinctNames(es) && i < |es|
    ensures DistinctNames(es[..i] + es[i + 1..])
  {
  }

  /** The comma-separated names, newest client first. */
  function NameList(es: seq<Entry>): string {
    if es == [] then "" else es[0].username + NameTail(es[1..])
  }

  function NameTail(es: seq<Entry>): string {
    if es == [] then "" else "," + es[0].username + NameTail(es[1..])
  }

  lemma NameEnds()
    ensures NameList([]) == "" && NameTail([]) == ""
  {
  }

  lemma NameStep(es: seq<Entry>, i: nat)
    requires i < |es|
    ensures i == 0 ==> NameList(es) == es[0].username + NameTail(es[1..])
    ensures NameTail(es[i..]) == "," + es[i].username + NameTail(es[i + 1..])
  {
    assert es[i..][1..] == es[i + 1..];
  }

  class Node {
    const sid: nat
    const sockfd: int
    const username: string
    var room: string
    const admin: bool
    var next: Node?

    constructor (e: Entry)
      ensures Value() == e && next == null
    {
      sid, sockfd, username, room, admin := e.sid, e.fd, e.username, e.room, e.admin;
      next := null;
    }

    function Value(): Entry
      reads this
    {
      Entry(sid, sockfd, username, room, admin)
    }
  }

  class ClientRegistry {
    var head: Node?
    var count: nat
    ghost var nodes: seq<Node>

    ghost predicate Valid()
      reads this, nodes
    {
      Linked() && DistinctNames(Contents())
    }

    ghost predicate Linked()
      reads this, nodes
    {
      && count == |nodes|
      && (forall i, j :: 0 <= i < j < |nodes| ==> nodes[i] != nodes[j])
      && (forall i, j :: 0 <= i && j == i + 1 && j < |nodes| ==> nodes[i].next == nodes[j])
      && (nodes != [] ==> nodes[|nodes| - 1].next == null)
      && head == At(0)
    }

    ghost function At(i: nat): Node?
      reads this
    {
      if i < |nodes| then nodes[i] else null
    }

    ghost function Contents(): (s: seq<Entry>)
      reads this, nodes
      ensures |s| == |nodes| && forall i :: 0 <= i < |s| ==> s[i] == nodes[i].Value()
    {
      seq(|nodes|, i requires 0 <= i < |nodes| reads this, nodes => nodes[i].Value())
    }

    constructor ()
      ensures Valid() && Contents() == []
    {
      head, count, nodes := null, 0, [];
    }

    /** registry_add */
    method Add(e: Entry) returns (rc: Status)
      requires Valid()
      modifies this
      ensures Valid()
      ensures rc == AddResult(old(Contents()), e.username)
      ensures Contents() == if rc == Ok then [e] + old(Contents()) else old(Contents())
      ensures forall n :: n in nodes ==> n in old(nodes) || fresh(n)
    {
      var node := new Node(e);
      if count >= MAX_CLIENTS {
        return ErrFull;
      }
      var cur := head;
      ghost var i := 0;
      while cur != null
        invariant 0 <= i <= |nodes| && cur == At(i)
        invariant forall j :: 0 <= j < i ==> Contents()[j].username != e.username
        decreases |nodes| - i
      {
        if cur.username == e.username {
          return ErrDuplicate;
        }
        cur := cur.next;
        i := i + 1;
      }
      DistinctWithNew(e, Contents());
      Prepend(node);
      rc := Ok;
    }

    method Prepend(node: Node)
      requires Linked() && node !in nodes && count == |nodes|
      modifies this, node
      ensures Linked() && nodes == [node] + old(nodes)
      ensures Contents() == [old(node.Value())] + old(Contents())
    {
      node.next := head;
      head := node;
      count := count + 1;
      nodes := [node] + nodes;
    }

    method UnlinkFirst()
      requires Linked() && nodes != []
      modifies this
      ensures Linked() && forall n :: n in nodes ==> n in old(nodes)
      ensures Contents() == old(Contents()[1..])
    {
      head := head.next;
      count := count - 1;
      nodes := nodes[1..];
    }

    method UnlinkAfter(prev: Node, ghost i: nat)
      requires Linked() && i + 1 < |nodes| && nodes[i] == prev
      modifies this, prev
      ensures Linked() && forall n :: n in nodes ==> n in old(nodes)
      ensures Contents() == old(Contents()[..i + 1] + Contents()[i + 2..])
    {
      ghost var was := nodes;
      assert prev.next == was[i + 1];
      assert was[i + 1].next == At(i + 2);
      prev.next := prev.next.next;
      count := count - 1;
      nodes := nodes[..i + 1] + nodes[i + 2..];
      assert forall j :: 0 <= j <= i ==> nodes[j] == was[j];
      assert forall j, k :: i < j < |nodes| && k == j + 1 ==> nodes[j] == was[k];
    }

    /** registry_remove */
    method Remove(fd: int) returns (rc: Status)
      requires Valid()
      modifies this, nodes
      ensures Valid()
      ensures rc == if ByFd(old(Contents()), fd).Some? then Ok else ErrNotFound
      ensures Contents() == Removed(old(Contents()), fd)
      ensures forall n :: n in nodes ==> n in old(nodes)
    {
      hide Linked, DistinctNames;
      var prev, cur := FindForRemoval(fd);
      if cur == null {
        return ErrNotFound;
      }
      Unlink(prev, PosOfFd(Contents(), fd));
      rc := Ok;
    }

    method Unlink(prev: Node?, ghost i: nat)
      requires Valid() && i < |nodes|
      requires prev == if i == 0 then null else nodes[i - 1]
      modifies this, nodes
      ensures Valid() && forall n :: n in nodes ==> n in old(nodes)
      ensures Contents() == old(Contents()[..i] + Contents()[i + 1..])
    {
      hide Linked, DistinctNames;
      DistinctWithout(Contents(), i);
      if prev == null {
        assert Contents()[..0] + Contents()[1..] == Contents()[1..];
        UnlinkFirst();
      } else {
        UnlinkAfter(prev, i - 1);
      }
    }

    method FindForRemoval(fd: int) returns (prev: Node?, cur: Node?)
      requires Valid()
      ensures var i := PosOfFd(Contents(), fd);
              cur == At(i) && prev == if i == 0 then null else nodes[i - 1]
    {
      prev := null;
      cur := head;
      ghost var i := 0;
      while cur != null && cur.sockfd != fd
        invariant 0 <= i <= |nodes| && cur == At(i)
        invariant prev == if i == 0 then null else nodes[i - 1]
        invariant forall j :: 0 <= j < i ==> Contents()[j].fd != fd
        decreases |nodes| - i
      {
        prev := cur;
        cur := cur.next;
        i := i + 1;
      }
    }

    /** The search loop shared by registry_get_username, registry_get_room,
        registry_is_admin and registry_set_room. */
    method FindByFd(fd: int) returns (node: Node?)
      requires Valid()
      ensures node == At(PosOfFd(Contents(), fd))
    {
      node := head;
      ghost var i := 0;
      while node != null && node.sockfd != fd
        invariant 0 <= i <= |nodes| && node == At(i)
        invariant forall j :: 0 <= j < i ==> Contents()[j].fd != fd
        decreases |nodes| - i
      {
        node := node.next;
        i := i + 1;
      }
    }

    method GetUsername(fd: int) returns (rc: Status, name: string)
      requires Valid()
      ensures ByFd(Contents(), fd) == None ==> rc == ErrNotFound && name == ""
      ensures ByFd(Contents(), fd).Some? ==> rc == Ok && name == ByFd(Contents(), fd).value.username
    {
      var node := FindByFd(fd);
      if node == null {
        return ErrNotFound, "";
      }
      return Ok, node.username;
    }

    method GetRoom(fd: int) returns (rc: Status, room: string)
      requires Valid()
      ensures ByFd(Contents(), fd) == None ==> rc == ErrNotFound && room == ""
      ensures ByFd(Contents(), fd).Some? ==> rc == Ok && room == ByFd(Contents(), fd).value.room
    {
      var node := FindByFd(fd);
      if node == null {
        return ErrNotFound, "";
      }
      return Ok, node.room;
    }

    method IsAdmin(fd: int) returns (admin: bool)
      requires Valid()
      ensures admin == (ByFd(Contents(), fd).Some? && ByFd(Contents(), fd).value.admin)
    {
      var node := FindByFd(fd);
      admin := node != null && node.admin;
    }

    /** registry_set_room overwrites the room of the first match and nothing else. */
    method SetRoom(fd: int, room: string) returns (rc: Status)
      requires Valid()
      modifies nodes
      ensures Valid() && nodes == old(nodes)
      ensures rc == if ByFd(old(Contents()), fd).Some? then Ok else ErrNotFound
      ensures Contents() == Moved(old(Contents()), fd, Clip(room, MAX_ROOM_NAME_LEN - 1))
    {
      hide Linked, DistinctNames;
      var node := FindByFd(fd);
      if node == null {
        return ErrNotFound;
      }
      Overwrite(node, PosOfFd(Contents(), fd), Clip(room, MAX_ROOM_NAME_LEN - 1));
      rc := Ok;
    }

    method Overwrite(node: Node, ghost i: nat, room: string)
      requires Valid() && i < |nodes| && nodes[i] == node
      modifies node
      ensures Valid() && Contents() == old(Contents()[i := Contents()[i].(room := room)])
    {
      ghost var was := Contents();
      node.room := room;
      assert Contents() == was[i := was[i].(room := room)];
    }

    /** The search loop of registry_username_exists and registry_get_sockfd_by_username. */
    method FindByName(name: string) returns (node: Node?)
      requires Valid()
      ensures node == At(PosOfName(Contents(), name))
    {
      node := head;
      ghost var i := 0;
      while node != null && node.username != name
        invariant 0 <= i <= |nodes| && node == At(i)
        invariant forall j :: 0 <= j < i ==> Contents()[j].username != name
        decreases |nodes| - i
      {
        node := node.next;
        i := i + 1;
      }
    }

    method UsernameExists(name: string) returns (found: bool)
      requires Valid()
      ensures found == ByName(Contents(), name).Some?
    {
      var node := FindByName(name);
      found := node != null;
    }

    method GetSockfdByUsername(name: string) returns (fd: int)
      requires Valid()
      ensures fd == if ByName(Contents(), name).Some? then ByName(Contents(), name).value.fd else -1
    {
      var node := FindByName(name);
      fd := if node == null then -1 else node.sockfd;
    }

    /** registry_build_user_list: the list is produced exactly when it fits the
        buffer with its terminator. */
    method BuildUserList(buflen: nat) returns (rc: Status, buf: string)
      requires Valid()
      ensures rc == Ok <==> |NameList(Contents())| < buflen
      ensures rc == Ok ==> buf == NameList(Contents())
    {
      hide NameList, NameTail;
      if buflen == 0 {
        return Err, "";
      }
      buf := "";
      var first := true;
      var cur := head;
      ghost var i := 0;
      while cur != null
        invariant 0 <= i <= |nodes| && cur == At(i) && first == (i == 0) && |buf| < buflen
        invariant i == 0 ==> buf == ""
        invariant i > 0 ==> NameList(Contents()) == buf + NameTail(Contents()[i..])
        decreases |nodes| - i
      {
        var piece := if first then cur.username else "," + cur.username;
        first := false;
        NameStep(Contents(), i);
        assert NameList(Contents()) == buf + (piece + NameTail(Contents()[i + 1..]));
        if |piece| >= buflen - |buf| {
          return Err, buf;
        }
        buf := buf + piece;
        cur := cur.next;
        i := i + 1;
      }
      NameEnds();
      assert Contents()[|nodes|..] == [];
      rc := Ok;
    }

    /** The two locked sections of registry_foreach: the first node, and the node
        behind one that is still in the list. */
    method First() returns (node: Node?)
      requires Valid()
      ensures node == null <==> Contents() == []
      ensures node != null ==> node in nodes && node.Value() == Contents()[0]
    {
      node := head;
    }

    method After(cur: Node) returns (node: Node?)
      requires Valid() && cur in nodes
      requires forall i, j :: 0 <= i < j < |nodes| ==> nodes[i].sid != nodes[j].sid
      ensures node == null <==> Behind(Sids(Contents()), cur.sid) == []
      ensures node != null ==> node in nodes && node.sid == Behind(Sids(Contents()), cur.sid)[0]
    {
      ghost var i :| 0 <= i < |nodes| && nodes[i] == cur;
      assert Contents()[i].sid == cur.sid;
      assert PosOfSid(Contents(), cur.sid) == i;
      BehindAt(Contents(), i);
      assert cur.next == At(i + 1);
      node := cur.next;
    }
  }
}
