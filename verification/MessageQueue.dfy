/** The broadcast queue (src/common/message_queue.c): a head/tail linked list and
    the sequence it stands for. Waiting on the condition variable is the subject of
    module WaitQueue; a pop is modelled from the point where the wait loop ends. */
module MessageQueue {
  import opened Common

  /** mq_event_type_t; MQ_ROOM_JOIN and MQ_ROOM_LEAVE are never produced. */
  datatype Kind = Chat | Join | Leave | Shutdown

  /** mq_message_t. sid is the registration that caused the event (model only). */
  datatype Event = Event(kind: Kind, sid: nat, user: string, room: string, text: string, time: int)

  class QNode {
    const msg: Event
    var next: QNode?

    constructor (msg: Event)
      ensures this.msg == msg && next == null
    {
      this.msg, next := msg, null;
    }
  }

  class Queue {
    var head: QNode?
    var tail: QNode?
    var count: nat
    var shutdown: bool
    ghost var nodes: seq<QNode>

    ghost predicate Valid()
      reads this, nodes
    {
      && count == |nodes|
      && (forall i, j :: 0 <= i < j < |nodes| ==> nodes[i] != nodes[j])
      && (forall i, j :: 0 <= i && j == i + 1 && j < |nodes| ==> nodes[i].next == nodes[j])
      && (nodes != [] ==> nodes[|nodes| - 1].next == null)
      && head == (if nodes == [] then null else nodes[0])
      && tail == (if nodes == [] then null else nodes[|nodes| - 1])
    }

    ghost function Contents(): (s: seq<Event>)
      reads this
      ensures |s| == |nodes| && forall i :: 0 <= i < |s| ==> s[i] == nodes[i].msg
    {
      seq(|nodes|, i requires 0 <= i < |nodes| reads this => nodes[i].msg)
    }

    constructor ()
      ensures Valid() && Contents() == [] && !shutdown
    {
      head, tail, count, shutdown, nodes := null, null, 0, false, [];
    }

    /** mq_push appends at the tail, unless shutdown has been signalled. */
    method Push(msg: Event) returns (rc: Status)
      requires Valid()
      modifies this, nodes
      ensures Valid() && shutdown == old(shutdown)
      ensures rc == if shutdown then Err else Ok
      ensures Contents() == if rc == Ok then old(Contents()) + [msg] else old(Contents())
      ensures forall n :: n in nodes ==> n in old(nodes) || fresh(n)
    {
      var node := new QNode(msg);
      if shutdown {
        return Err;
      }
      ghost var was, n := nodes, |nodes|;
      if tail == null {
        head := node;
        tail := node;
      } else {
        tail.next := node;
        tail := node;
      }
      count := count + 1;
      nodes := nodes + [node];
      assert forall i :: 0 <= i < n ==> nodes[i] == was[i];
      rc := Ok;
    }

    /** mq_pop after its wait loop: fails only when shut down and drained. */
    method Pop() returns (rc: Status, out: Option<Event>)
      requires Valid() && (head != null || shutdown)
      modifies this
      ensures Valid() && shutdown == old(shutdown)
      ensures rc == if old(Contents()) == [] then Err else Ok
      ensures rc == Ok ==> out == Some(old(Contents())[0]) && Contents() == old(Contents())[1..]
      ensures rc != Ok ==> out == None && Contents() == []
      ensures forall n :: n in nodes ==> n in old(nodes)
    {
      if head == null {
        return Err, None;
      }
      var node := head;
      head := node.next;
      if head == null {
        tail := null;
      }
      count := count - 1;
      nodes := nodes[1..];
      return Ok, Some(node.msg);
    }

    /** mq_signal_shutdown leaves the queued events in place. */
    method SignalShutdown()
      requires Valid()
      modifies this`shutdown
      ensures Valid() && shutdown && Contents() == old(Contents())
    {
      shutdown := true;
    }

    /** After shutdown exactly the queued events can still be popped, in order, and
        every later pop fails. */
    method Drain() returns (out: seq<Event>)
      requires Valid() && shutdown
      modifies this
      ensures Valid() && out == old(Contents()) && Contents() == [] && shutdown
    {
      hide Valid, Contents;
      out := [];
      ghost var all, rest := Contents(), Contents();
      while true
        invariant Valid() && shutdown && rest == Contents() && out + rest == all
        decreases |rest|
      {
        var rc, e := Pop();
        if rc != Ok {
          return;
        }
        HeadMoves(out, rest);
        out, rest := out + [e.value], rest[1..];
      }
    }
  }

  lemma HeadMoves(out: seq<Event>, rest: seq<Event>)
    requires rest != []
    ensures out + rest == (out + [rest[0]]) + rest[1..]
  {
  }
}
