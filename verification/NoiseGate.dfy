/**
 The noise gate as a state machine over frames; a frame's loudness comes with it, and fading is a tag on the output.
*/
module GateSpec {
  /** `steps` of `of` is how far a fade still has to go. */
  datatype Out<P> = Unchanged(frame: P) | Faded(frame: P, steps: nat, of: nat) | Silence

  datatype Thresholds = Thresholds(open: real, close: real, enabled: bool)

  /** Fixed at construction, in frames. */
  datatype Config = Config(lookahead: nat, hold: nat, release: nat)

  datatype Gate<P> = Gate(queue: seq<P>, flushLeft: nat, open: bool, holdLeft: nat, releaseLeft: nat,
                          silenced: nat, passed: nat)

  function Fresh<P>(): Gate<P> {
    Gate([], 0, false, 0, 0, 0, 0)
  }

  /** Opening, holding and closing, before the frame is queued. */
  function Decide<P>(c: Config, t: Thresholds, g: Gate<P>, rms: real): Gate<P> {
    if rms >= t.open then
      g.(flushLeft := if g.open then g.flushLeft else |g.queue| + 1, open := true, holdLeft := c.hold, releaseLeft := 0)
    else if !g.open then g
    else if rms >= t.close then g.(holdLeft := c.hold)
    else if g.holdLeft > 0 then g.(holdLeft := g.holdLeft - 1)
    else g.(open := false, releaseLeft := c.release)
  }

  function Emit<P>(c: Config, g: Gate<P>, frame: P, passthrough: bool): (Gate<P>, Out<P>) {
    if passthrough then (g.(passed := g.passed + 1), Unchanged(frame))
    else if g.releaseLeft > 0 then
      (g.(releaseLeft := g.releaseLeft - 1, passed := g.passed + 1), Faded(frame, g.releaseLeft, c.release + 1))
    else (g.(silenced := g.silenced + 1), Silence)
  }

  function Delayed<P>(c: Config, g: Gate<P>, frame: P, passthrough: bool): (Gate<P>, Out<P>) {
    if c.lookahead == 0 then Emit(c, g, frame, passthrough)
    else
      var queue := g.queue + [frame];
      if |queue| <= c.lookahead then (g.(queue := queue), Silence)
      else
        var rest := g.(queue := queue[1..]);
        if g.flushLeft > 0 then (rest.(flushLeft := g.flushLeft - 1, passed := g.passed + 1), Unchanged(queue[0]))
        else Emit(c, rest, queue[0], passthrough)
  }

  function Process<P>(c: Config, t: Thresholds, g: Gate<P>, frame: P, rms: real): (Gate<P>, Out<P>) {
    if !t.enabled then Delayed(c, g.(passed := g.passed + 1), frame, true)
    else
      var decided := Decide(c, t, g, rms);
      Delayed(c, decided, frame, decided.open)
  }

  function Reset<P>(g: Gate<P>): Gate<P> {
    g.(open := false, holdLeft := 0, releaseLeft := 0, flushLeft := 0, queue := [])
  }
}

/** Runs of the gate from a fresh or reset state; thresholds and the switch may change at every call. */
module GateRuns {
  import opened Common
  import opened GateSpec

  datatype Call<P> = Call(thresholds: Thresholds, frame: P, rms: real)

  function After<P>(c: Config, start: Gate<P>, calls: seq<Call<P>>): Gate<P> {
    if calls == [] then start
    else
      var last := calls[|calls| - 1];
      Process(c, last.thresholds, After(c, start, calls[..|calls| - 1]), last.frame, last.rms).0
  }

  function Output<P>(c: Config, start: Gate<P>, calls: seq<Call<P>>, n: nat): Out<P>
    requires n < |calls|
  {
    Process(c, calls[n].thresholds, After(c, start, calls[..n]), calls[n].frame, calls[n].rms).1
  }

  function Frames<P>(calls: seq<Call<P>>): seq<P> {
    seq(|calls|, i requires 0 <= i < |calls| => calls[i].frame)
  }

  /** A fresh gate, or one that was reset. */
  ghost predicate Started<P>(g: Gate<P>) {
    g.queue == [] && !g.open && g.flushLeft == 0 && g.holdLeft == 0 && g.releaseLeft == 0
  }

  /** An output that stands for a given frame. */
  ghost predicate StandsFor<P>(c: Config, out: Out<P>, frame: P) {
    match out
    case Unchanged(f) => f == frame
    case Faded(f, steps, of) => f == frame && 0 < steps < of == c.release + 1
    case Silence => true
  }

  lemma StepQueue<P>(c: Config, t: Thresholds, g: Gate<P>, frame: P, rms: real)
    requires |g.queue| <= c.lookahead
    ensures Process(c, t, g, frame, rms).0.queue == Suffix(g.queue + [frame], c.lookahead)
  {
    var kept := Suffix(g.queue + [frame], c.lookahead);
    if c.lookahead == 0 {
      assert kept == g.queue;
    } else if |g.queue| < c.lookahead {
      assert kept == g.queue + [frame];
    } else {
      assert kept == (g.queue + [frame])[1..];
    }
  }

  lemma StepOut<P>(c: Config, t: Thresholds, g: Gate<P>, frame: P, rms: real)
    requires |g.queue| <= c.lookahead && g.releaseLeft <= c.release
    ensures Process(c, t, g, frame, rms).0.releaseLeft <= c.release
    ensures if |g.queue| < c.lookahead then Process(c, t, g, frame, rms).1 == Silence
            else StandsFor(c, Process(c, t, g, frame, rms).1, (g.queue + [frame])[0])
  {
  }

  lemma StepCount<P>(c: Config, t: Thresholds, g: Gate<P>, frame: P, rms: real)
    requires |g.queue| <= c.lookahead
    ensures var after := Process(c, t, g, frame, rms).0;
            after.passed + after.silenced + |after.queue|
            == g.passed + g.silenced + |g.queue| + (if t.enabled then 1 else 2)
  {
  }

  lemma SuffixOfSuffix<P>(s: seq<P>, x: P, n: nat)
    ensures Suffix(Suffix(s, n) + [x], n) == Suffix(s + [x], n)
  {
  }

  lemma FramesOneMore<P>(calls: seq<Call<P>>)
    requires calls != []
    ensures Frames(calls) == Frames(calls[..|calls| - 1]) + [calls[|calls| - 1].frame]
  {
  }

  lemma QueueFollows<P>(c: Config, g: Gate<P>, call: Call<P>, frames: seq<P>)
    requires g.queue == Suffix(frames, c.lookahead) && g.releaseLeft <= c.release
    ensures var after := Process(c, call.thresholds, g, call.frame, call.rms).0;
            after.queue == Suffix(frames + [call.frame], c.lookahead) && after.releaseLeft <= c.release
  {
    StepQueue(c, call.thresholds, g, call.frame, call.rms);
    StepOut(c, call.thresholds, g, call.frame, call.rms);
    SuffixOfSuffix(frames, call.frame, c.lookahead);
  }

  /** The queue is the newest frames not yet given back. */
  lemma {:induction false} QueueIsSuffix<P>(c: Config, start: Gate<P>, calls: seq<Call<P>>)
    requires Started(start)
    ensures After(c, start, calls).queue == Suffix(Frames(calls), c.lookahead)
    ensures After(c, start, calls).releaseLeft <= c.release
  {
    if calls == [] {
    } else {
      var before, last := calls[..|calls| - 1], calls[|calls| - 1];
      QueueIsSuffix(c, start, before);
      FramesOneMore(calls);
      QueueFollows(c, After(c, start, before), last, Frames(before));
    }
  }

  /**
   The gate is a delay line: the first `lookahead` outputs are silence, and every later one is the frame of
   `lookahead` calls before, unchanged or faded, or silence in its place.
  */
  lemma DelayLine<P>(c: Config, start: Gate<P>, calls: seq<Call<P>>, n: nat)
    requires Started(start) && n < |calls|
    ensures if n < c.lookahead then Output(c, start, calls, n) == Silence
            else StandsFor(c, Output(c, start, calls, n), calls[n - c.lookahead].frame)
  {
    var g := After(c, start, calls[..n]);
    QueueIsSuffix(c, start, calls[..n]);
    StepOut(c, calls[n].thresholds, g, calls[n].frame, calls[n].rms);
    if n >= c.lookahead > 0 {
      assert g.queue[0] == Frames(calls[..n])[n - c.lookahead];
    }
  }

  /** The calls made while the gate is switched off. */
  function Disabled<P>(calls: seq<Call<P>>): nat {
    if calls == [] then 0
    else Disabled(calls[..|calls| - 1]) + (if calls[|calls| - 1].thresholds.enabled then 0 else 1)
  }

  /** Every call is counted once, and those made while the gate is switched off once more. */
  lemma {:induction false} CountersBalance<P>(c: Config, start: Gate<P>, calls: seq<Call<P>>)
    requires Started(start) && start.passed == 0 && start.silenced == 0
    ensures var g := After(c, start, calls);
            g.passed + g.silenced + |g.queue| == |calls| + Disabled(calls)
  {
    if calls == [] {
    } else {
      var before, last := calls[..|calls| - 1], calls[|calls| - 1];
      CountersBalance(c, start, before);
      QueueIsSuffix(c, start, before);
      StepCount(c, last.thresholds, After(c, start, before), last.frame, last.rms);
    }
  }

  lemma {:induction false} NeverDisabled<P>(calls: seq<Call<P>>)
    ensures Disabled(calls) == 0 <==> forall i :: 0 <= i < |calls| ==> calls[i].thresholds.enabled
  {
    if calls == [] {
    } else {
      NeverDisabled(calls[..|calls| - 1]);
    }
  }

  /** The counters add up to the calls exactly when the gate was never switched off. */
  lemma CountersAddUp<P>(c: Config, start: Gate<P>, calls: seq<Call<P>>)
    requires Started(start) && start.passed == 0 && start.silenced == 0
    ensures var g := After(c, start, calls);
            g.passed + g.silenced + |g.queue| == |calls|
            <==> forall i :: 0 <= i < |calls| ==> calls[i].thresholds.enabled
  {
    CountersBalance(c, start, calls);
    NeverDisabled(calls);
  }

  // Speech is not clipped.

  predicate Opens<P>(call: Call<P>) {
    call.thresholds.enabled && call.rms >= call.thresholds.open
  }

  lemma StepHold<P>(c: Config, call: Call<P>, g: Gate<P>)
    requires g.open
    ensures var after := Process(c, call.thresholds, g, call.frame, call.rms).0;
            g.holdLeft > 0 ==> after.open && after.holdLeft >= (if g.holdLeft <= c.hold then g.holdLeft - 1 else c.hold)
  {
  }

  lemma StepOpens<P>(c: Config, call: Call<P>, g: Gate<P>)
    requires Opens(call)
    ensures var after := Process(c, call.thresholds, g, call.frame, call.rms).0;
            after.open && after.holdLeft == c.hold
  {
  }

  /** A gate that is open and has hold left passes the frame at the head of its queue unchanged. */
  lemma StepPasses<P>(c: Config, call: Call<P>, g: Gate<P>)
    requires |g.queue| == c.lookahead
             && ((g.open && g.holdLeft > 0) || Opens(call) || (g.flushLeft > 0 && c.lookahead > 0))
    ensures Process(c, call.thresholds, g, call.frame, call.rms).1 == Unchanged((g.queue + [call.frame])[0])
  {
  }

  lemma StepHoldBound<P>(c: Config, call: Call<P>, g: Gate<P>)
    requires g.holdLeft <= c.hold
    ensures Process(c, call.thresholds, g, call.frame, call.rms).0.holdLeft <= c.hold
  {
  }

  /** After a loud frame the gate is open, with at least the hold less the calls since. */
  lemma {:induction false} StaysOpen<P>(c: Config, start: Gate<P>, calls: seq<Call<P>>, loud: nat)
    requires loud < |calls| && Opens(calls[loud]) && |calls| - 1 - loud <= c.hold
    ensures After(c, start, calls).open
    ensures c.hold >= After(c, start, calls).holdLeft >= c.hold - (|calls| - 1 - loud)
    decreases |calls|
  {
    var before, last := calls[..|calls| - 1], calls[|calls| - 1];
    var g := After(c, start, before);
    if loud == |calls| - 1 {
      StepOpens(c, last, g);
    } else {
      assert before[loud] == calls[loud];
      StaysOpen(c, start, before, loud);
      StepHold(c, last, g);
      StepHoldBound(c, last, g);
    }
  }

  /** A frame at or above the opening threshold comes out unchanged, provided the hold outlasts the look-ahead. */
  lemma LoudFramesPass<P>(c: Config, start: Gate<P>, calls: seq<Call<P>>, loud: nat)
    requires Started(start) && c.hold >= c.lookahead
    requires loud + c.lookahead < |calls| && Opens(calls[loud])
    ensures Output(c, start, calls, loud + c.lookahead) == Unchanged(calls[loud].frame)
  {
    var n := loud + c.lookahead;
    var g := After(c, start, calls[..n]);
    QueueIsSuffix(c, start, calls[..n]);
    if c.lookahead > 0 {
      assert calls[..n][loud] == calls[loud];
      StaysOpen(c, start, calls[..n], loud);
      assert g.queue[0] == Frames(calls[..n])[loud];
    }
    StepPasses(c, calls[n], g);
  }

  lemma StepFlush<P>(c: Config, call: Call<P>, g: Gate<P>, owed: int)
    requires 0 < c.lookahead && |g.queue| <= c.lookahead
    requires g.flushLeft >= owed || (Opens(call) && !g.open && owed <= |g.queue| + 1)
    requires owed <= |g.queue| + 1
    ensures var after := Process(c, call.thresholds, g, call.frame, call.rms).0;
            after.flushLeft >= owed - 1 + |after.queue| - |g.queue|
  {
  }

  /** Once the gate has opened, every frame queued then and the opening frame are marked until they are out. */
  lemma {:induction false} FlushCovers<P>(c: Config, start: Gate<P>, calls: seq<Call<P>>, opening: nat)
    requires Started(start) && c.lookahead > 0 && opening < |calls|
    requires Opens(calls[opening]) && !After(c, start, calls[..opening]).open
    ensures After(c, start, calls).flushLeft >= opening + 1 - |calls| + |After(c, start, calls).queue|
    decreases |calls|
  {
    var before, last := calls[..|calls| - 1], calls[|calls| - 1];
    var g := After(c, start, before);
    QueueIsSuffix(c, start, before);
    if opening == |calls| - 1 {
      StepFlush(c, last, g, |g.queue| + 1);
    } else {
      assert before[..opening] == calls[..opening];
      FlushCovers(c, start, before, opening);
      StepFlush(c, last, g, opening + 2 - |calls| + |g.queue|);
    }
  }

  /** The start of a word is not clipped: the frames still queued when the gate opens come out unchanged too. */
  lemma QueuedFramesPass<P>(c: Config, start: Gate<P>, calls: seq<Call<P>>, opening: nat, queued: nat)
    requires Started(start) && opening < |calls| && queued + c.lookahead < |calls|
    requires Opens(calls[opening]) && !After(c, start, calls[..opening]).open
    requires opening - |After(c, start, calls[..opening]).queue| <= queued <= opening
    ensures Output(c, start, calls, queued + c.lookahead) == Unchanged(calls[queued].frame)
  {
    var n := queued + c.lookahead;
    var g := After(c, start, calls[..n]);
    QueueIsSuffix(c, start, calls[..n]);
    QueueIsSuffix(c, start, calls[..opening]);
    if n > opening {
      assert calls[..n][..opening] == calls[..opening];
      FlushCovers(c, start, calls[..n], opening);
    }
    if c.lookahead > 0 {
      assert g.queue[0] == Frames(calls[..n])[queued];
    }
    StepPasses(c, calls[n], g);
  }

  // And silence returns.

  /** Below both thresholds. */
  predicate Quiet<P>(call: Call<P>) {
    call.thresholds.enabled && call.rms < call.thresholds.close && call.rms < call.thresholds.open
  }

  ghost predicate AllQuiet<P>(calls: seq<Call<P>>) {
    forall i :: 0 <= i < |calls| ==> Quiet(calls[i])
  }

  /** Speech that has grown softer, but not below the closing threshold, keeps the gate open with its hold renewed. */
  lemma StepSustains<P>(c: Config, call: Call<P>, g: Gate<P>)
    requires g.open && call.thresholds.enabled && call.rms >= call.thresholds.close
    ensures var after := Process(c, call.thresholds, g, call.frame, call.rms).0; after.open && after.holdLeft == c.hold
  {
  }

  /** With the hold used up a quiet frame shuts the gate, and the fade begins with what is not marked. */
  lemma StepShuts<P>(c: Config, call: Call<P>, g: Gate<P>)
    requires Quiet(call) && g.open && g.holdLeft == 0 && |g.queue| == c.lookahead
    ensures var (after, out) := Process(c, call.thresholds, g, call.frame, call.rms);
            var head := (g.queue + [call.frame])[0];
            if c.lookahead > 0 && g.flushLeft > 0 then out == Unchanged(head) && after.releaseLeft == c.release
            else if c.release > 0 then
              out == Faded(head, c.release, c.release + 1) && after.releaseLeft == c.release - 1
            else out == Silence
  {
  }

  /** A reset gate is as good as new, but for its counters. */
  lemma ResetStarts<P>(g: Gate<P>)
    ensures Started(Reset(g)) && Reset(g).passed == g.passed && Reset(g).silenced == g.silenced
  {
  }

  lemma StepQuiet<P>(c: Config, call: Call<P>, g: Gate<P>)
    requires Quiet(call)
    ensures var after := Process(c, call.thresholds, g, call.frame, call.rms).0;
            && (after.open <==> g.open && g.holdLeft > 0) && (after.open ==> after.holdLeft == g.holdLeft - 1)
  {
  }

  /** An open gate stays open for exactly as many quiet frames as it has hold left, and shuts with the next one. */
  lemma {:induction false} QuietShutsExactly<P>(c: Config, start: Gate<P>, calls: seq<Call<P>>)
    requires AllQuiet(calls)
    ensures After(c, start, calls).open <==> start.open && |calls| <= start.holdLeft
    ensures After(c, start, calls).open ==> After(c, start, calls).holdLeft == start.holdLeft - |calls|
  {
    if calls == [] {
    } else {
      var before := calls[..|calls| - 1];
      QuietShutsExactly(c, start, before);
      StepQuiet(c, calls[|calls| - 1], After(c, start, before));
    }
  }

  /** How many more outputs of a shut gate may be something else than silence. */
  function Remaining<P>(c: Config, g: Gate<P>): nat
    requires |g.queue| <= c.lookahead
  {
    c.lookahead - |g.queue| + (if c.lookahead == 0 then 0 else g.flushLeft) + g.releaseLeft
  }

  /** A shut gate that is not opened counts down, and is silent once it has. */
  lemma StepFallsSilent<P>(c: Config, call: Call<P>, g: Gate<P>)
    requires !g.open && call.thresholds.enabled && !Opens(call) && |g.queue| <= c.lookahead
    ensures var (after, out) := Process(c, call.thresholds, g, call.frame, call.rms);
            && !after.open && |after.queue| <= c.lookahead
            && Remaining(c, after) == (if Remaining(c, g) > 0 then Remaining(c, g) - 1 else 0)
            && (Remaining(c, g) == 0 ==> out == Silence)
  {
  }

  /** On the way it fades step by step: first what opened it, unchanged, then ever fainter frames. */
  lemma StepFades<P>(c: Config, call: Call<P>, g: Gate<P>)
    requires !g.open && call.thresholds.enabled && !Opens(call) && |g.queue| == c.lookahead
    ensures var (after, out) := Process(c, call.thresholds, g, call.frame, call.rms);
            var head := (g.queue + [call.frame])[0];
            if c.lookahead > 0 && g.flushLeft > 0 then out == Unchanged(head) && after.releaseLeft == g.releaseLeft
            else if g.releaseLeft > 0 then out == Faded(head, g.releaseLeft, c.release + 1)
                                           && after.releaseLeft == g.releaseLeft - 1
            else out == Silence
  {
  }

  lemma {:induction false} ShutFallsSilent<P>(c: Config, start: Gate<P>, calls: seq<Call<P>>)
    requires !start.open && |start.queue| <= c.lookahead
    requires forall i :: 0 <= i < |calls| ==> calls[i].thresholds.enabled && !Opens(calls[i])
    ensures var g := After(c, start, calls);
            && !g.open && |g.queue| <= c.lookahead
            && Remaining(c, g) == (if Remaining(c, start) > |calls| then Remaining(c, start) - |calls| else 0)
  {
    if calls == [] {
    } else {
      var before := calls[..|calls| - 1];
      ShutFallsSilent(c, start, before);
      StepFallsSilent(c, calls[|calls| - 1], After(c, start, before));
    }
  }

  /** What bounds the countdowns in any run. */
  ghost predicate Within<P>(c: Config, g: Gate<P>) {
    && |g.queue| <= c.lookahead && g.holdLeft <= c.hold && g.releaseLeft <= c.release
    && (c.lookahead > 0 ==> g.flushLeft <= |g.queue| + 1)
  }

  lemma StepStaysWithin<P>(c: Config, call: Call<P>, g: Gate<P>)
    requires Within(c, g)
    ensures Within(c, Process(c, call.thresholds, g, call.frame, call.rms).0)
  {
  }

  lemma {:induction false} RunsStayWithin<P>(c: Config, start: Gate<P>, calls: seq<Call<P>>)
    requires Started(start)
    ensures Within(c, After(c, start, calls))
  {
    if calls == [] {
    } else {
      RunsStayWithin(c, start, calls[..|calls| - 1]);
      StepStaysWithin(c, calls[|calls| - 1], After(c, start, calls[..|calls| - 1]));
    }
  }

  lemma {:induction false} AfterConcat<P>(c: Config, start: Gate<P>, first: seq<Call<P>>, second: seq<Call<P>>)
    ensures After(c, start, first + second) == After(c, After(c, start, first), second)
  {
    if second == [] {
      assert first + second == first;
    } else {
      var last := |second| - 1;
      AfterConcat(c, start, first, second[..last]);
      assert (first + second)[..|first + second| - 1] == first + second[..last];
    }
  }

  lemma ShutAfterQuiet<P>(c: Config, start: Gate<P>, calls: seq<Call<P>>, m: nat)
    requires Started(start) && m + c.hold + 1 <= |calls|
    requires forall i :: m <= i < m + c.hold + 1 ==> Quiet(calls[i])
    ensures var g := After(c, start, calls[..m + c.hold + 1]); !g.open && Within(c, g)
  {
    var k := m + c.hold + 1;
    RunsStayWithin(c, start, calls[..m]);
    RunsStayWithin(c, start, calls[..k]);
    assert calls[..k] == calls[..m] + calls[m..k];
    AfterConcat(c, start, calls[..m], calls[m..k]);
    QuietShutsExactly(c, After(c, start, calls[..m]), calls[m..k]);
  }

  /**
   After any run, once hold, look-ahead and fade have passed in quiet, the outputs are silence: `hold` + 1 quiet frames
   shut the gate, and `lookahead` + 1 + `release` more outputs are all it can still give.
  */
  lemma SilenceReturns<P>(c: Config, start: Gate<P>, calls: seq<Call<P>>, n: nat)
    requires Started(start) && c.hold + 1 + c.lookahead + 1 + c.release <= n < |calls|
    requires forall i :: n - (c.hold + 1 + c.lookahead + 1 + c.release) <= i <= n ==> Quiet(calls[i])
    ensures Output(c, start, calls, n) == Silence
  {
    var m := n - (c.hold + 1 + c.lookahead + 1 + c.release);
    var k := m + c.hold + 1;
    ShutAfterQuiet(c, start, calls, m);
    assert calls[..n] == calls[..k] + calls[k..n];
    AfterConcat(c, start, calls[..k], calls[k..n]);
    ShutFallsSilent(c, After(c, start, calls[..k]), calls[k..n]);
    StepFallsSilent(c, calls[n], After(c, start, calls[..n]));
  }

  /** Switched off, the gate passes every frame on unchanged, as late as ever. */
  lemma DisabledPasses<P>(c: Config, start: Gate<P>, calls: seq<Call<P>>, n: nat)
    requires Started(start) && c.lookahead <= n < |calls| && !calls[n].thresholds.enabled
    ensures Output(c, start, calls, n) == Unchanged(calls[n - c.lookahead].frame)
  {
    QueueIsSuffix(c, start, calls[..n]);
    var g := After(c, start, calls[..n]);
    if c.lookahead > 0 {
      assert g.queue[0] == Frames(calls[..n])[n - c.lookahead];
    }
  }
}

/** The gate as the microphone thread holds it. */
module NoiseGates {
  import G = GateSpec
  import opened GateSpec

  const CLOSE_RATIO: real := 0.5

  /** `P` is a frame of the right size; how loud it is comes with it. */
  class NoiseGate<P> {
    const config: Config
    var thresholds: Thresholds
    var queue: seq<P>
    var flushLeft: nat
    var isOpen: bool
    var holdLeft: nat
    var releaseLeft: nat
    var silenced: nat
    var passed: nat

    function State(): Gate<P>
      reads this
    {
      Gate(queue, flushLeft, isOpen, holdLeft, releaseLeft, silenced, passed)
    }

    constructor (config: Config, openRms: real, closeRms: real)
      requires closeRms <= openRms
      ensures State() == Fresh() && this.config == config && thresholds == Thresholds(openRms, closeRms, true)
    {
      this.config := config;
      thresholds := Thresholds(openRms, closeRms, true);
      queue, flushLeft, isOpen, holdLeft, releaseLeft, silenced, passed := [], 0, false, 0, 0, 0, 0;
    }

    method SetThreshold(openRms: real)
      modifies this`thresholds
      ensures thresholds == old(thresholds).(open := if openRms > 0.0 then openRms else 0.0,
                            close := (if openRms > 0.0 then openRms else 0.0) * CLOSE_RATIO)
    {
      var bounded := if openRms > 0.0 then openRms else 0.0;
      thresholds := thresholds.(open := bounded, close := bounded * CLOSE_RATIO);
    }

    method Emit(frame: P, passthrough: bool) returns (out: Out<P>)
      modifies this`releaseLeft, this`silenced, this`passed
      ensures (State(), out) == G.Emit(config, old(State()), frame, passthrough)
    {
      if passthrough {
        passed := passed + 1;
        return Unchanged(frame);
      }
      if releaseLeft > 0 {
        releaseLeft, passed := releaseLeft - 1, passed + 1;
        return Faded(frame, releaseLeft + 1, config.release + 1);
      }
      silenced := silenced + 1;
      return Silence;
    }

    method Delayed(frame: P, passthrough: bool) returns (out: Out<P>)
      modifies this`queue, this`flushLeft, this`releaseLeft, this`silenced, this`passed
      ensures (State(), out) == G.Delayed(config, old(State()), frame, passthrough)
    {
      if config.lookahead == 0 {
        out := Emit(frame, passthrough);
        return;
      }
      queue := queue + [frame];
      if |queue| <= config.lookahead {
        return Silence;
      }
      var outgoing := queue[0];
      queue := queue[1..];
      if flushLeft > 0 {
        flushLeft, passed := flushLeft - 1, passed + 1;
        return Unchanged(outgoing);
      }
      out := Emit(outgoing, passthrough);
    }

    method Process(frame: P, rms: real) returns (out: Out<P>)
      modifies this`queue, this`flushLeft, this`isOpen, this`holdLeft, this`releaseLeft, this`silenced, this`passed
      ensures (State(), out) == G.Process(config, thresholds, old(State()), frame, rms)
    {
      if !thresholds.enabled {
        passed := passed + 1;
        out := Delayed(frame, true);
        return;
      }
      if rms >= thresholds.open {
        if !isOpen {
          flushLeft := |queue| + 1;
        }
        isOpen, holdLeft, releaseLeft := true, config.hold, 0;
      } else if isOpen {
        if rms >= thresholds.close {
          holdLeft := config.hold;
        } else if holdLeft > 0 {
          holdLeft := holdLeft - 1;
        } else {
          isOpen, releaseLeft := false, config.release;
        }
      }
      out := Delayed(frame, isOpen);
    }

    method Reset()
      modifies this`queue, this`flushLeft, this`isOpen, this`holdLeft, this`releaseLeft
      ensures State() == G.Reset(old(State()))
    {
      isOpen, holdLeft, releaseLeft, flushLeft, queue := false, 0, 0, 0, [];
    }
  }
}
