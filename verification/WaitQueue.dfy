/** The condition-variable protocol of the queue (src/common/message_queue.c) as a
    state machine over its locked sections, for any number of producers and
    consumers and with spurious wake-ups. */
module WaitQueue {
  import opened MessageQueue

  /** Where a consumer is inside mq_pop: outside it, about to test the loop
      condition for the first time, blocked in pthread_cond_wait, or woken and on
      its way to test again. */
  datatype Consumer = Outside | Testing | Asleep | Woken

  datatype State = State(queue: seq<Event>, shutdown: bool, consumers: seq<Consumer>,
                         accepted: seq<Event>, popped: seq<Event>)

  datatype Step =
    | Push(msg: Event, woken: set<nat>)
    | SignalShutdown
    | Call(c: nat)
    | Test(c: nat)
    | Spurious(c: nat)

  ghost function With(consumers: seq<Consumer>, what: Consumer): set<nat> {
    set c | 0 <= c < |consumers| && consumers[c] == what
  }

  function Wake(consumers: seq<Consumer>, woken: set<nat>): (r: seq<Consumer>)
    ensures |r| == |consumers|
    ensures forall c :: 0 <= c < |r| ==> r[c] == if c in woken && consumers[c] == Asleep then Woken else consumers[c]
  {
    seq(|consumers|, c requires 0 <= c < |consumers| =>
          if c in woken && consumers[c] == Asleep then Woken else consumers[c])
  }

  /** pthread_cond_signal wakes at least one sleeper if there is any; the locked part
      of mq_pop tests the condition, takes the head, sleeps or fails. */
  ghost predicate Next(s: State, step: Step, t: State) {
    match step
    case Push(msg, woken) =>
      if s.shutdown then t == s
      else
        && woken <= With(s.consumers, Asleep)
        && (With(s.consumers, Asleep) != {} ==> woken != {})
        && t == s.(queue := s.queue + [msg], accepted := s.accepted + [msg], consumers := Wake(s.consumers, woken))
    case SignalShutdown =>
      t == s.(shutdown := true, consumers := Wake(s.consumers, With(s.consumers, Asleep)))
    case Call(c) =>
      c < |s.consumers| && s.consumers[c] == Outside && t == s.(consumers := s.consumers[c := Testing])
    case Test(c) =>
      && c < |s.consumers|
      && (s.consumers[c] == Testing || s.consumers[c] == Woken)
      && t == if s.queue != [] then
                s.(queue := s.queue[1..], popped := s.popped + [s.queue[0]], consumers := s.consumers[c := Outside])
              else if s.shutdown then s.(consumers := s.consumers[c := Outside])
              else s.(consumers := s.consumers[c := Asleep])
    case Spurious(c) =>
      c < |s.consumers| && s.consumers[c] == Asleep && t == s.(consumers := s.consumers[c := Woken])
  }

  ghost predicate Init(s: State) {
    && s.queue == [] && s.accepted == [] && s.popped == [] && !s.shutdown
    && forall c :: 0 <= c < |s.consumers| ==> s.consumers[c] == Outside
  }

  /** A run: a first state and, at each step, a state allowed by the protocol. */
  ghost predicate Run(states: seq<State>, steps: seq<Step>) {
    && |states| == |steps| + 1
    && Init(states[0])
    && forall i, j :: 0 <= i < |steps| && j == i + 1 ==> Next(states[i], steps[i], states[j])
  }

  /** While somebody sleeps, every queued event has a consumer already woken for it;
      after shutdown nobody sleeps; nothing is lost, duplicated or reordered. */
  ghost predicate Inv(s: State) {
    && (!s.shutdown && With(s.consumers, Asleep) != {} ==> |s.queue| <= |With(s.consumers, Woken)|)
    && (s.shutdown ==> With(s.consumers, Asleep) == {})
    && s.accepted == s.popped + s.queue
  }

  lemma PushKeeps(s: State, msg: Event, woken: set<nat>, t: State)
    requires Inv(s) && Next(s, Push(msg, woken), t)
    ensures Inv(t)
  {
    if !s.shutdown && With(s.consumers, Asleep) != {} {
      assert With(t.consumers, Woken) == With(s.consumers, Woken) + woken;
      assert |woken| >= 1 by {
        var c :| c in woken;
        assert |woken| == |woken - {c}| + 1;
      }
    } else if !s.shutdown {
      assert With(t.consumers, Asleep) == {};
    }
  }

  lemma TestKeeps(s: State, c: nat, t: State)
    requires Inv(s) && Next(s, Test(c), t)
    ensures Inv(t)
  {
    var z := t.consumers[c];
    assert With(t.consumers, Woken) == With(s.consumers, Woken) - {c};
    assert z == Outside ==> With(t.consumers, Asleep) == With(s.consumers, Asleep);
    if s.queue != [] {
      assert s.popped + s.queue == s.popped + [s.queue[0]] + s.queue[1..];
    }
  }

  lemma StepKeeps(s: State, step: Step, t: State)
    requires Inv(s) && Next(s, step, t)
    ensures Inv(t)
  {
    match step
    case Push(msg, woken) => PushKeeps(s, msg, woken, t);
    case SignalShutdown =>
    case Call(c) =>
      assert With(t.consumers, Woken) == With(s.consumers, Woken);
      assert With(t.consumers, Asleep) == With(s.consumers, Asleep);
    case Test(c) => TestKeeps(s, c, t);
    case Spurious(c) =>
      assert With(t.consumers, Woken) == With(s.consumers, Woken) + {c};
      assert With(t.consumers, Asleep) == With(s.consumers, Asleep) - {c};
  }

  /** No lost wake-up and no lost event, in every state of every run. */
  lemma {:induction false} NoLostWakeup(states: seq<State>, steps: seq<Step>, i: nat)
    requires Run(states, steps) && i < |states|
    ensures Inv(states[i])
  {
    if i == 0 {
      assert With(states[0].consumers, Asleep) == {};
    } else {
      NoLostWakeup(states, steps, i - 1);
      StepKeeps(states[i - 1], steps[i - 1], states[i]);
    }
  }

  /** So a state in which everybody in mq_pop sleeps holds no event. */
  lemma SleepersMissNothing(states: seq<State>, steps: seq<Step>, i: nat)
    requires Run(states, steps) && i < |states|
    requires With(states[i].consumers, Asleep) != {} && With(states[i].consumers, Woken) == {}
    ensures states[i].queue == [] && !states[i].shutdown && states[i].popped == states[i].accepted
  {
    NoLostWakeup(states, steps, i);
  }
}
