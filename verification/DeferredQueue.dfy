/** Messages held until their key arrives: what a flush delivers and what it keeps. */
module DeferredQueue {
  import opened KeyAgreement
  import opened Envelope

  const DEFERRED_MESSAGE_SECONDS: real := 3.0
  const MAX_DEFERRED_MESSAGES: nat := 50

  /** A message with its arrival time; `serial` tells held messages apart. */
  datatype Held = Held(serial: nat, arrived: real, message: Message)

  predicate Readable(byId: map<nat, SenderKey>, h: Held) {
    var t := TokenOf(h.message.content);
    t.Token? && t.id in byId
  }

  predicate TimedOut(now: real, h: Held) {
    now - h.arrived >= DEFERRED_MESSAGE_SECONDS
  }

  /** How many of the oldest are beyond the limit. */
  function Overflow(queue: seq<Held>): nat {
    if |queue| > MAX_DEFERRED_MESSAGES then |queue| - MAX_DEFERRED_MESSAGES else 0
  }

  predicate Due(byId: map<nat, SenderKey>, now: real, overflow: nat, index: nat, h: Held) {
    Readable(byId, h) || TimedOut(now, h) || index < overflow
  }

  /** The first `n` entries of a queue, split into those to deliver and those to keep. */
  function Split(byId: map<nat, SenderKey>, now: real, overflow: nat, queue: seq<Held>, n: nat): (seq<Held>, seq<Held>)
    requires n <= |queue|
  {
    if n == 0 then ([], [])
    else
      var (deliver, keep) := Split(byId, now, overflow, queue, n - 1);
      if Due(byId, now, overflow, n - 1, queue[n - 1]) then (deliver + [queue[n - 1]], keep)
      else (deliver, keep + [queue[n - 1]])
  }

  /** Nothing is lost or doubled. */
  lemma {:induction false} SplitBalanced(byId: map<nat, SenderKey>, now: real, overflow: nat, queue: seq<Held>, n: nat)
    requires n <= |queue|
    ensures var (deliver, keep) := Split(byId, now, overflow, queue, n);
            multiset(deliver) + multiset(keep) == multiset(queue[..n])
  {
    if n == 0 {
    } else {
      SplitBalanced(byId, now, overflow, queue, n - 1);
      assert queue[..n] == queue[..n - 1] + [queue[n - 1]];
    }
  }

  /** What is kept is neither readable nor timed out, and the overflow is not kept. */
  lemma {:induction false} SplitKeeps(byId: map<nat, SenderKey>, now: real, overflow: nat, queue: seq<Held>, n: nat)
    requires n <= |queue|
    ensures var keep := Split(byId, now, overflow, queue, n).1;
            && |keep| <= (if n <= overflow then 0 else n - overflow)
            && forall i :: 0 <= i < |keep| ==> !Readable(byId, keep[i]) && !TimedOut(now, keep[i])
  {
    if n == 0 {
    } else {
      SplitKeeps(byId, now, overflow, queue, n - 1);
    }
  }

  function Flushed(byId: map<nat, SenderKey>, now: real, queue: seq<Held>): (seq<Held>, seq<Held>) {
    Split(byId, now, Overflow(queue), queue, |queue|)
  }

  /** The loop of a flush. */
  method Flush(byId: map<nat, SenderKey>, now: real, queue: seq<Held>)
    returns (deliver: seq<Held>, remaining: seq<Held>)
    ensures (deliver, remaining) == Flushed(byId, now, queue)
    ensures |remaining| <= MAX_DEFERRED_MESSAGES
    ensures forall i :: 0 <= i < |remaining| ==> !Readable(byId, remaining[i]) && !TimedOut(now, remaining[i])
    ensures multiset(deliver) + multiset(remaining) == multiset(queue)
  {
    var overflow := Overflow(queue);
    deliver, remaining := [], [];
    for index := 0 to |queue|
      invariant (deliver, remaining) == Split(byId, now, overflow, queue, index)
    {
      if Due(byId, now, overflow, index, queue[index]) {
        deliver := deliver + [queue[index]];
      } else {
        remaining := remaining + [queue[index]];
      }
    }
    SplitBalanced(byId, now, overflow, queue, |queue|);
    SplitKeeps(byId, now, overflow, queue, |queue|);
    assert queue[..|queue|] == queue;
  }

  ghost predicate Increasing(s: seq<Held>) {
    forall i, j :: 0 <= i < j < |s| ==> s[i].serial < s[j].serial
  }

  ghost predicate UpTo(s: seq<Held>, bound: int) {
    forall i :: 0 <= i < |s| ==> s[i].serial <= bound
  }

  lemma AppendInOrder(s: seq<Held>, last: int, h: Held)
    requires Increasing(s) && UpTo(s, last) && last < h.serial
    ensures Increasing(s + [h]) && UpTo(s + [h], h.serial) && UpTo(s, h.serial)
  {
  }

  /** Both halves stay in arrival order. */
  lemma {:induction false} SplitInOrder(byId: map<nat, SenderKey>, now: real, overflow: nat, queue: seq<Held>, n: nat)
    requires n <= |queue| && Increasing(queue)
    ensures var (deliver, keep) := Split(byId, now, overflow, queue, n);
            var last := if n == 0 then -1 else queue[n - 1].serial;
            Increasing(deliver) && Increasing(keep) && UpTo(deliver, last) && UpTo(keep, last)
  {
    if n == 0 {
    } else {
      SplitInOrder(byId, now, overflow, queue, n - 1);
      var (deliver, keep) := Split(byId, now, overflow, queue, n - 1);
      var last := if n == 1 then -1 else queue[n - 2].serial;
      AppendInOrder(deliver, last, queue[n - 1]);
      AppendInOrder(keep, last, queue[n - 1]);
    }
  }

  lemma {:induction false} SplitExactly(byId: map<nat, SenderKey>, now: real, overflow: nat, queue: seq<Held>, n: nat,
                                        k: nat)
    requires Increasing(queue) && n <= |queue| && k < |queue|
    ensures var (deliver, keep) := Split(byId, now, overflow, queue, n);
            && (queue[k] in deliver <==> k < n && Due(byId, now, overflow, k, queue[k]))
            && (queue[k] in keep <==> k < n && !Due(byId, now, overflow, k, queue[k]))
  {
    if n == 0 {
    } else {
      SplitExactly(byId, now, overflow, queue, n - 1, k);
    }
  }

  /** A held message is delivered exactly when it is readable, has waited its time, or is beyond the newest fifty. */
  lemma FlushedExactly(byId: map<nat, SenderKey>, now: real, queue: seq<Held>, k: nat)
    requires Increasing(queue) && k < |queue|
    ensures var (deliver, keep) := Flushed(byId, now, queue);
            var content := queue[k].message.content;
            && (queue[k] in deliver <==> (content.Cipher? && content.token.Token? && content.token.id in byId)
                                         || now - queue[k].arrived >= 3.0 || |queue| - k > 50)
            && (queue[k] in keep <==> queue[k] !in deliver)
  {
    SplitExactly(byId, now, Overflow(queue), queue, |queue|, k);
  }

  // Two threads at work: one listens and holds, both flush, and each hands over what it selected before it flushes
  // again.

  datatype Thread = Listen | Tick

  datatype State = State(queue: seq<Held>, listen: seq<Held>, tick: seq<Held>, delivered: seq<Held>, cleared: seq<Held>,
                         arrived: seq<Held>)

  datatype Action =
    | Hold(now: real, message: Message)
    | Select(thread: Thread, byId: map<nat, SenderKey>, now: real)
    | HandOver(thread: Thread)
    | DropSession

  const IDLE: State := State([], [], [], [], [], [])

  function Hand(s: State, thread: Thread): seq<Held> {
    if thread == Listen then s.listen else s.tick
  }

  function WithHand(s: State, thread: Thread, hand: seq<Held>): State {
    if thread == Listen then s.(listen := hand) else s.(tick := hand)
  }

  function Next(s: State, a: Action): State {
    match a
    case Hold(now, message) =>
      var h := Held(|s.arrived|, now, message);
      s.(queue := s.queue + [h], arrived := s.arrived + [h])
    case Select(thread, byId, now) =>
      if Hand(s, thread) != [] then s
      else
        var (deliver, keep) := Flushed(byId, now, s.queue);
        WithHand(s.(queue := keep), thread, deliver)
    case HandOver(thread) =>
      var hand := Hand(s, thread);
      if hand == [] then s
      else WithHand(s.(delivered := s.delivered + [hand[0]]), thread, hand[1..])
    case DropSession => s.(queue := [], cleared := s.cleared + s.queue)
  }

  function Run(actions: seq<Action>): State {
    if actions == [] then IDLE else Next(Run(actions[..|actions| - 1]), actions[|actions| - 1])
  }

  /** Every message ever held is in exactly one place, exactly once. */
  ghost predicate Balanced(s: State) {
    multiset(s.queue) + multiset(s.listen) + multiset(s.tick) + multiset(s.delivered) + multiset(s.cleared)
    == multiset(s.arrived)
  }

  /** The queue and what each thread has in hand are in arrival order. */
  ghost predicate InOrder(s: State) {
    && (forall i :: 0 <= i < |s.arrived| ==> s.arrived[i].serial == i)
    && Increasing(s.queue) && Increasing(s.listen) && Increasing(s.tick)
    && UpTo(s.queue, |s.arrived| - 1)
  }

  lemma MovedBalanced(s: State, after: State, thread: Thread, deliver: seq<Held>, keep: seq<Held>)
    requires Balanced(s) && Hand(s, thread) == [] && after == WithHand(s.(queue := keep), thread, deliver)
    requires multiset(deliver) + multiset(keep) == multiset(s.queue)
    ensures Balanced(after)
  {
    assert multiset(Hand(s, thread)) == multiset{};
  }

  lemma SelectBalanced(s: State, thread: Thread, byId: map<nat, SenderKey>, now: real)
    requires Balanced(s)
    ensures Balanced(Next(s, Select(thread, byId, now)))
  {
    SplitBalanced(byId, now, Overflow(s.queue), s.queue, |s.queue|);
    assert s.queue[..|s.queue|] == s.queue;
    var (deliver, keep) := Flushed(byId, now, s.queue);
    var after := WithHand(s.(queue := keep), thread, deliver);
    if Hand(s, thread) == [] {
      assert Next(s, Select(thread, byId, now)) == after;
      MovedBalanced(s, after, thread, deliver, keep);
    }
  }

  lemma HandOverBalanced(s: State, thread: Thread)
    requires Balanced(s)
    ensures Balanced(Next(s, HandOver(thread)))
  {
    var hand := Hand(s, thread);
    if hand != [] {
      assert hand == [hand[0]] + hand[1..];
      assert multiset(hand) == multiset{hand[0]} + multiset(hand[1..]);
    }
  }

  lemma NextBalanced(s: State, a: Action)
    requires Balanced(s)
    ensures Balanced(Next(s, a))
  {
    match a
    case Hold(now, message) =>
    case Select(thread, byId, now) => SelectBalanced(s, thread, byId, now);
    case HandOver(thread) => HandOverBalanced(s, thread);
    case DropSession =>
  }

  lemma NextInOrder(s: State, a: Action)
    requires InOrder(s)
    ensures InOrder(Next(s, a))
  {
    if a.Select? {
      SplitInOrder(a.byId, a.now, Overflow(s.queue), s.queue, |s.queue|);
    }
  }

  lemma {:induction false} EveryRunAccounted(actions: seq<Action>)
    ensures Balanced(Run(actions)) && InOrder(Run(actions))
  {
    if actions == [] {
    } else {
      EveryRunAccounted(actions[..|actions| - 1]);
      NextBalanced(Run(actions[..|actions| - 1]), actions[|actions| - 1]);
      NextInOrder(Run(actions[..|actions| - 1]), actions[|actions| - 1]);
    }
  }

  lemma {:induction false} OnceEach(s: seq<Held>)
    requires forall i :: 0 <= i < |s| ==> s[i].serial == i
    ensures forall h :: multiset(s)[h] <= 1
  {
    if s == [] {
    } else {
      var front := s[..|s| - 1];
      OnceEach(front);
      assert s == front + [s[|s| - 1]];
      assert s[|s| - 1] !in front;
    }
  }

  /**
   However the threads interleave, no message is delivered twice, and one that is neither held nor selected nor
   cleared was delivered.
  */
  lemma DeliveredExactlyOnce(actions: seq<Action>, h: Held)
    ensures var s := Run(actions);
            && multiset(s.delivered)[h] <= 1
            && (h in s.arrived ==> (h in s.delivered
                                    <==> h !in s.queue && h !in s.listen && h !in s.tick && h !in s.cleared))
  {
    EveryRunAccounted(actions);
    var s := Run(actions);
    OnceEach(s.arrived);
    assert multiset(s.arrived)[h] == multiset(s.queue)[h] + multiset(s.listen)[h] + multiset(s.tick)[h]
                                     + multiset(s.delivered)[h] + multiset(s.cleared)[h];
  }
}
