/**
 Catch-up converges: a buffer that sits above its target, fed one frame in order per frame
 played, melts its excess one frame at a time and then stays at the target.
*/
module JitterConvergence {
  import opened Extremes
  import opened JitterSpec

  /** Playing with `depth` consecutive frames in hand, starting at the next slot. */
  ghost predicate Gapless<P>(b: Jitter<P>, depth: nat) {
    && b.playing && depth >= 1
    && forall k :: k in b.frames <==> b.next <= k < b.next + depth
  }

  lemma GaplessShape<P>(b: Jitter<P>, depth: nat)
    requires Gapless(b, depth)
    ensures b.next in b.frames && Running(b)
    ensures |b.frames| == depth && Depth(b) == depth && Max(b.frames.Keys) == b.next + depth - 1
  {
    assert b.next in b.frames.Keys && b.next + depth - 1 in b.frames.Keys;
    assert b.frames.Keys == Range(b.next, b.next + depth);
  }

  /** The number after the newest frame in hand. */
  function Newest<P>(b: Jitter<P>): nat {
    if b.frames.Keys != {} && Max(b.frames.Keys) >= 0 then Max(b.frames.Keys) + 1 else 0
  }

  /** One frame time: the device takes a frame, then the network brings the one after the newest. */
  ghost function Round<P>(c: Config, b: Jitter<P>, feed: nat -> P): Jitter<P>
    requires c.Valid()
  {
    Push(c, Pop(c, b).0, Newest(b), feed(Newest(b))).0
  }

  function Iterate<S>(step: S -> S, start: S, n: nat): S
    decreases n
  {
    if n == 0 then start else Iterate(step, step(start), n - 1)
  }

  ghost function Rounds<P>(c: Config, b: Jitter<P>, feed: nat -> P, n: nat): Jitter<P>
    requires c.Valid()
  {
    Iterate((x: Jitter<P>) => Round(c, x, feed), b, n)
  }

  /** On the way down, about to start on it, or already at the target. */
  ghost predicate Settling<P>(c: Config, b: Jitter<P>, excess: nat) {
    && c.Valid() && c.interval.Some? && c.target + excess <= c.capacity
    && Gapless(b, c.target + excess) && b.next >= 0 && b.sinceDrop >= 1
    && (excess > 0 ==> b.catchingUp || excess > c.slack)
  }

  predicate DropDue<P>(c: Config, b: Jitter<P>, excess: nat)
    requires c.interval.Some?
  {
    excess > 0 && b.sinceDrop >= c.interval.value
  }

  /** What the pop of a round does before its slot is read. */
  lemma GaplessReady<P>(c: Config, b: Jitter<P>, excess: nat)
    requires Settling(c, b, excess)
    ensures Consumes(c, b)
    ensures var r := Ready(c, b);
            if DropDue(c, b, excess) then
              Gapless(r, c.target + excess - 1) && r.next == b.next + 1 && r.sinceDrop == 0
              && r.tally == b.tally.(dropped := b.tally.dropped + 1) && r.catchingUp
            else
              Gapless(r, c.target + excess) && r.next == b.next && r.sinceDrop == b.sinceDrop
              && r.tally == b.tally && (excess > 0 ==> r.catchingUp)
    ensures forall k :: k in Ready(c, b).frames ==> k in b.frames && Ready(c, b).frames[k] == b.frames[k]
  {
    GaplessShape(b, c.target + excess);
    assert Started(b) == b;
    if excess > 0 {
      var flagged := Flagged(c, b, Depth(b));
      assert HeadSkipped(c, b) == flagged;
      if b.sinceDrop >= c.interval.value {
        var dropped := DropOldest(flagged);
        assert Gapless(dropped, c.target + excess - 1);
        assert dropped.next in dropped.frames;
        assert SkipMissingHead(c, dropped, Depth(b) - 1) == dropped;
      }
    }
  }

  /** The pop of a round hands out the head; what is left still has no gaps. */
  lemma RoundPop<P>(c: Config, b: Jitter<P>, excess: nat)
    requires Settling(c, b, excess)
    ensures var due := DropDue(c, b, excess);
            var depth := c.target + excess - (if due then 1 else 0);
            var (popped, frame) := Pop(c, b);
            && frame.Some? && popped.playing
            && popped.next + depth - 1 == b.next + c.target + excess
            && |popped.frames| == depth - 1
            && (forall k :: k in popped.frames <==> popped.next <= k < popped.next + depth - 1)
            && popped.sinceDrop == (if due then 1 else b.sinceDrop + 1)
            && popped.tally == b.tally.(dropped := b.tally.dropped + (if due then 1 else 0))
            && (depth > c.target ==> popped.catchingUp)
  {
    GaplessReady(c, b, excess);
    var ready := Ready(c, b);
    GaplessShape(ready, c.target + excess - (if DropDue(c, b, excess) then 1 else 0));
    TakeSize(ready);
  }

  /** A round drops a frame when one is due and otherwise only waits. */
  ghost predicate Settles<P>(c: Config, b: Jitter<P>, excess: nat, r: Jitter<P>)
    requires c.interval.Some?
  {
    var due := DropDue(c, b, excess);
    && Settling(c, r, if due then excess - 1 else excess)
    && r.sinceDrop == (if due then 1 else b.sinceDrop + 1)
    && r.tally == b.tally.(dropped := b.tally.dropped + (if due then 1 else 0))
  }

  lemma RoundSettles<P>(c: Config, b: Jitter<P>, excess: nat, feed: nat -> P)
    requires Settling(c, b, excess)
    ensures Settles(c, b, excess, Round(c, b, feed))
  {
    GaplessShape(b, c.target + excess);
    RoundPop(c, b, excess);
    var popped := Pop(c, b).0;
    var newest := b.next + c.target + excess;
    assert newest !in popped.frames;
    var r := Push(c, popped, newest, feed(newest)).0;
    assert r == popped.(frames := popped.frames[newest := feed(newest)]);
  }

  /** How many rounds the excess still needs: a drop when one is due, otherwise one round of waiting. */
  function Needed(interval: nat, excess: nat, sinceDrop: nat): nat
    decreases excess, interval - sinceDrop
  {
    if excess == 0 then 0
    else if sinceDrop >= interval then 1 + Needed(interval, excess - 1, 1)
    else 1 + Needed(interval, excess, sinceDrop + 1)
  }

  lemma {:induction false} NeededBound(interval: nat, excess: nat, sinceDrop: nat)
    requires interval >= 1 && sinceDrop >= 1
    ensures excess > 0 ==> var first := if sinceDrop >= interval then 1 else interval - sinceDrop + 1;
                           Needed(interval, excess, sinceDrop) <= first + (excess - 1) * interval
    ensures Needed(interval, excess, sinceDrop) <= interval * excess
    decreases excess, interval - sinceDrop
  {
    if excess == 0 {
    } else {
      if sinceDrop < interval {
        NeededBound(interval, excess, sinceDrop + 1);
      } else if excess > 1 {
        NeededBound(interval, excess - 1, 1);
        assert (excess - 1) * interval == interval + (excess - 2) * interval;
      }
      assert interval * excess == interval + (excess - 1) * interval;
    }
  }

  /** A round brings the count of rounds still needed down by one. */
  lemma OneRoundLess<P>(c: Config, b: Jitter<P>, excess: nat, r: Jitter<P>)
    requires Settling(c, b, excess) && Settles(c, b, excess, r)
    ensures var left := if DropDue(c, b, excess) then excess - 1 else excess;
            && Settling(c, r, left)
            && r.tally == b.tally.(dropped := b.tally.dropped + (excess - left))
            && Needed(c.interval.value, excess, b.sinceDrop)
               == if excess == 0 then 0 else 1 + Needed(c.interval.value, left, r.sinceDrop)
  {
  }

  lemma {:induction false} SettlesWhenNeeded<P(!new)>(c: Config, step: Jitter<P> -> Jitter<P>, b: Jitter<P>,
                                                      excess: nat, n: nat)
    requires Settling(c, b, excess)
    requires forall x, e: nat {:trigger Settles(c, x, e, step(x))} :: Settling(c, x, e) ==> Settles(c, x, e, step(x))
    requires n >= Needed(c.interval.value, excess, b.sinceDrop)
    ensures Settling(c, Iterate(step, b, n), 0)
    ensures Iterate(step, b, n).tally == b.tally.(dropped := b.tally.dropped + excess)
    decreases n
  {
    if n == 0 {
    } else {
      assert Settles(c, b, excess, step(b));
      OneRoundLess(c, b, excess, step(b));
      SettlesWhenNeeded(c, step, step(b), if DropDue(c, b, excess) then excess - 1 else excess, n - 1);
    }
  }

  /**
   A gapless buffer with `excess` frames above the target, more than the slack or with catch-up on already, is at the
   target after `interval * excess` rounds and from then on; on the way it gives up exactly `excess` frames, loses
   none, and never goes silent.
  */
  lemma CatchUpConverges<P(!new)>(c: Config, b: Jitter<P>, excess: nat, feed: nat -> P, n: nat)
    requires Settling(c, b, excess)
    requires n >= c.interval.value * excess
    ensures Depth(Rounds(c, b, feed, n)) == c.target
    ensures Rounds(c, b, feed, n).tally == b.tally.(dropped := b.tally.dropped + excess)
  {
    NeededBound(c.interval.value, excess, b.sinceDrop);
    var step := (x: Jitter<P>) => Round(c, x, feed);
    forall x, e: nat | Settling(c, x, e) ensures Settles(c, x, e, step(x)) {
      RoundSettles(c, x, e, feed);
    }
    SettlesWhenNeeded(c, step, b, excess, n);
    GaplessShape(Iterate(step, b, n), c.target);
  }

  // Within the slack nothing happens.

  /** Playing without gaps, above the target but not above the slack, with catch-up off. */
  ghost predicate Tolerated<P>(c: Config, b: Jitter<P>, excess: nat) {
    && c.Valid() && c.interval.Some? && c.target + excess <= c.capacity && excess <= c.slack
    && Gapless(b, c.target + excess) && b.next >= 0 && !b.catchingUp
  }

  ghost predicate Tolerates<P>(c: Config, b: Jitter<P>, excess: nat, r: Jitter<P>) {
    Tolerated(c, r, excess) && r.tally == b.tally
  }

  lemma RoundTolerates<P>(c: Config, b: Jitter<P>, excess: nat, feed: nat -> P)
    requires Tolerated(c, b, excess)
    ensures Tolerates(c, b, excess, Round(c, b, feed))
  {
    GaplessShape(b, c.target + excess);
    NextOneIsPlayed(c, b);
    NonEmpty(b.frames);
    var popped := Pop(c, b).0;
    var newest := b.next + c.target + excess;
    assert popped == Take(b.(catchingUp := false));
    TakeSize(b.(catchingUp := false));
    assert newest !in popped.frames;
    var r := Push(c, popped, newest, feed(newest)).0;
    assert r == popped.(frames := popped.frames[newest := feed(newest)]);
  }

  lemma {:induction false} ToleratedForGood<P(!new)>(c: Config, step: Jitter<P> -> Jitter<P>, b: Jitter<P>,
                                                     excess: nat, n: nat)
    requires Tolerated(c, b, excess)
    requires forall x {:trigger Tolerates(c, x, excess, step(x))} :: Tolerated(c, x, excess)
                                                                     ==> Tolerates(c, x, excess, step(x))
    ensures Tolerates(c, b, excess, Iterate(step, b, n))
    decreases n
  {
    if n == 0 {
    } else {
      assert Tolerates(c, b, excess, step(b));
      ToleratedForGood(c, step, step(b), excess, n - 1);
    }
  }

  /** So a gapless buffer reaches the target exactly if it is there, is catching up, or is above the slack. */
  lemma ConvergesExactly<P(!new)>(c: Config, b: Jitter<P>, excess: nat, feed: nat -> P, n: nat)
    requires c.Valid() && c.interval.Some? && c.target + excess <= c.capacity
    requires Gapless(b, c.target + excess) && b.next >= 0 && b.sinceDrop >= 1
    requires n >= c.interval.value * excess
    ensures Depth(Rounds(c, b, feed, n)) == c.target <==> excess == 0 || b.catchingUp || excess > c.slack
  {
    if excess == 0 || b.catchingUp || excess > c.slack {
      CatchUpConverges(c, b, excess, feed, n);
    } else {
      var step := (x: Jitter<P>) => Round(c, x, feed);
      forall x | Tolerated(c, x, excess) ensures Tolerates(c, x, excess, step(x)) {
        RoundTolerates(c, x, excess, feed);
      }
      ToleratedForGood(c, step, b, excess, n);
      GaplessShape(Rounds(c, b, feed, n), c.target + excess);
    }
  }
}
