/**
 Whole runs of one jitter buffer: any sequence of pushes, pops and resets, with the bookkeeping
 an outside observer would do.
*/
module JitterRuns {
  import opened Common
  import opened JitterSpec

  datatype Op<P> = DoPush(sequence: nat, payload: P) | DoPop | DoReset

  /**
   `accepted`: every frame a push took, in order. `discarded`: frames thrown away by resyncs and resets.
   `advanced`: slots the play position moved over. `pops`: pops that used up a slot.
   `episode`: frames handed out since playback last started.
  */
  datatype Ledger<P> = Ledger(buffer: Jitter<P>, accepted: seq<(int, P)>, played: nat, discarded: nat,
                              advanced: int, pops: nat, episode: seq<(int, P)>)

  ghost function Opened<P>(c: Config): Ledger<P> {
    Ledger(Fresh(c), [], 0, 0, 0, 0, [])
  }

  ghost function Pushed<P>(c: Config, l: Ledger<P>, sequence: nat, payload: P): Ledger<P> {
    var (b, ok) := Push(c, l.buffer, sequence, payload);
    var resynced := b.tally.resync > l.buffer.tally.resync;
    l.(buffer := b,
    accepted := if ok then l.accepted + [(sequence as int, payload)] else l.accepted,
    discarded := if resynced then l.discarded + |l.buffer.frames| else l.discarded,
    episode := if resynced then [] else l.episode)
  }

  ghost function Popped<P>(c: Config, l: Ledger<P>): Ledger<P>
    requires c.Valid()
  {
    var (b, frame) := Pop(c, l.buffer);
    if Consumes(c, l.buffer) then
      NonEmpty(l.buffer.frames);
      var begun := if l.buffer.playing then l.episode else [];
      l.(buffer := b,
      played := if frame.Some? then l.played + 1 else l.played,
      advanced := l.advanced + (b.next - Started(l.buffer).next),
      pops := l.pops + 1,
      episode := if frame.Some? then begun + [(b.next - 1, frame.value)] else begun)
    else
      l.(buffer := b, episode := [])
  }

  ghost function Cleared<P>(l: Ledger<P>): Ledger<P> {
    l.(buffer := Reset(l.buffer), discarded := l.discarded + |l.buffer.frames|, episode := [])
  }

  ghost function Apply<P>(c: Config, l: Ledger<P>, op: Op<P>): Ledger<P>
    requires c.Valid()
  {
    match op
    case DoPush(sequence, payload) => Pushed(c, l, sequence, payload)
    case DoPop => Popped(c, l)
    case DoReset => Cleared(l)
  }

  ghost function Run<P>(c: Config, ops: seq<Op<P>>): Ledger<P>
    requires c.Valid()
  {
    if ops == [] then Opened(c) else Apply(c, Run(c, ops[..|ops| - 1]), ops[|ops| - 1])
  }

  ghost predicate Rising<P>(episode: seq<(int, P)>) {
    forall i, j :: 0 <= i < j < |episode| ==> episode[i].0 < episode[j].0
  }

  ghost predicate Behind<P>(episode: seq<(int, P)>, playing: bool, next: int) {
    forall i :: 0 <= i < |episode| ==> playing && episode[i].0 < next
  }

  /** Frames of one episode come out in strictly increasing order, all behind the play position. */
  ghost predicate Ordered<P>(l: Ledger<P>) {
    Rising(l.episode) && Behind(l.episode, l.buffer.playing, l.buffer.next)
  }

  /** Whatever is held or was handed out carries the payload a push accepted under that number. */
  ghost predicate Authentic<P>(l: Ledger<P>) {
    && (forall k :: k in l.buffer.frames ==> (k, l.buffer.frames[k]) in l.accepted)
    && (forall i :: 0 <= i < |l.episode| ==> l.episode[i] in l.accepted)
  }

  /** Every slot and every frame is accounted for. */
  ghost predicate Balanced<P>(l: Ledger<P>) {
    var t := l.buffer.tally;
    && l.advanced == l.played + t.lost + t.dropped + t.skipped
    && |l.accepted| == l.played + t.dropped + l.discarded + |l.buffer.frames|
  }

  /** At most one real frame is dropped per `interval` slots, plus the first. */
  ghost predicate Paced<P>(c: Config, l: Ledger<P>) {
    var t := l.buffer.tally;
    match c.interval
    case None => t.dropped == 0 && t.skipped == 0
    case Some(interval) => interval * t.dropped + l.buffer.sinceDrop <= l.pops + interval
  }

  ghost predicate Sound<P>(c: Config, l: Ledger<P>) {
    Bounded(c, l.buffer) && Ordered(l) && Authentic(l) && Balanced(l) && Paced(c, l)
  }

  lemma PushIsAuthentic<P>(c: Config, l: Ledger<P>, sequence: nat, payload: P)
    requires Authentic(l)
    ensures Authentic(Pushed(c, l, sequence, payload))
  {
    var after := Pushed(c, l, sequence, payload);
    forall k | k in after.buffer.frames ensures (k, after.buffer.frames[k]) in after.accepted {
      if |after.accepted| > |l.accepted| {
        assert after.accepted[|l.accepted|] == (sequence as int, payload);
      }
    }
  }

  /** An accepted frame is one more to account for; a resync throws away what was there before. */
  lemma PushBalances<P>(c: Config, l: Ledger<P>, sequence: nat, payload: P)
    requires Balanced(l)
    ensures Balanced(Pushed(c, l, sequence, payload))
  {
    var before, after := l.buffer.frames, Pushed(c, l, sequence, payload).buffer.frames;
    assert after in {before, map[sequence as int := payload]}
           || (sequence !in before && after == before[sequence as int := payload] && |after| == |before| + 1);
  }

  lemma PushKeepsOrder<P>(c: Config, l: Ledger<P>, sequence: nat, payload: P)
    requires Ordered(l)
    ensures Ordered(Pushed(c, l, sequence, payload))
  {
    var after := Pushed(c, l, sequence, payload);
    if after.episode != [] {
      assert after.episode == l.episode;
      assert after.buffer.playing == l.buffer.playing && after.buffer.next == l.buffer.next;
    }
  }

  lemma PushPaces<P>(c: Config, l: Ledger<P>, sequence: nat, payload: P)
    requires Paced(c, l)
    ensures Paced(c, Pushed(c, l, sequence, payload))
  {
    var before, after := l.buffer, Pushed(c, l, sequence, payload).buffer;
    assert after.sinceDrop == before.sinceDrop && after.tally.dropped == before.tally.dropped
           && after.tally.skipped == before.tally.skipped;
  }

  lemma PushKeepsSound<P>(c: Config, l: Ledger<P>, sequence: nat, payload: P)
    requires c.Valid() && Sound(c, l)
    ensures Sound(c, Pushed(c, l, sequence, payload))
  {
    PushBounded(c, l.buffer, sequence, payload);
    PushKeepsOrder(c, l, sequence, payload);
    PushPaces(c, l, sequence, payload);
    PushIsAuthentic(c, l, sequence, payload);
    PushBalances(c, l, sequence, payload);
  }

  /** What a consuming pop adds to each side of the two balances. */
  lemma PopAccounts<P>(c: Config, b: Jitter<P>)
    requires c.Valid() && Bounded(c, b) && Consumes(c, b)
    ensures b.frames.Keys != {}
    ensures var after := Pop(c, b).0;
            var one := if Pop(c, b).1.Some? then 1 else 0;
            var dropped := after.tally.dropped - b.tally.dropped;
            && after.next - Started(b).next
               == one + (after.tally.lost - b.tally.lost) + dropped + (after.tally.skipped - b.tally.skipped)
            && |b.frames| == |after.frames| + one + dropped
            && (dropped == 0 || dropped == 1)
            && (dropped == 0 ==> after.sinceDrop == b.sinceDrop + 1)
            && (dropped == 1 ==> c.interval.Some? && b.sinceDrop >= c.interval.value && after.sinceDrop == 1)
            && (c.interval.None? ==> after.tally.skipped == b.tally.skipped)
  {
    StartedBounded(c, b);
    TakeSize(Ready(c, b));
  }

  /** One more consuming pop, with or without a drop. */
  lemma PaceStep(interval: nat, dropped: nat, dropped': nat, since: nat, since': nat, pops: nat)
    requires interval * dropped + since <= pops + interval
    requires (dropped' == dropped && since' == since + 1)
             || (dropped' == dropped + 1 && since >= interval && since' == 1)
    ensures interval * dropped' + since' <= pops + 1 + interval
  {
    assert interval * (dropped + 1) == interval * dropped + interval;
  }

  lemma PopPaces<P>(c: Config, l: Ledger<P>)
    requires c.Valid() && Bounded(c, l.buffer) && Paced(c, l) && Consumes(c, l.buffer)
    ensures Paced(c, Popped(c, l))
  {
    PopAccounts(c, l.buffer);
    var b := l.buffer;
    var after := Pop(c, b).0;
    assert Popped(c, l).pops == l.pops + 1 && Popped(c, l).buffer == after;
    if c.interval.Some? {
      PaceStep(c.interval.value, b.tally.dropped, after.tally.dropped, b.sinceDrop, after.sinceDrop, l.pops);
    }
  }

  lemma PopBalances<P>(c: Config, l: Ledger<P>)
    requires c.Valid() && Bounded(c, l.buffer) && Balanced(l) && Consumes(c, l.buffer)
    ensures Balanced(Popped(c, l))
  {
    PopAccounts(c, l.buffer);
  }

  lemma PopKeepsOrder<P>(c: Config, l: Ledger<P>)
    requires c.Valid() && Sound(c, l) && Consumes(c, l.buffer)
    ensures Ordered(Popped(c, l)) && Authentic(Popped(c, l))
  {
    StartedBounded(c, l.buffer);
    var r := Ready(c, l.buffer);
    var after := Popped(c, l);
    assert after.buffer == Take(r);
    if r.next in r.frames {
      assert (r.next, r.frames[r.next]) in l.accepted;
    }
  }

  lemma ApplyKeepsSound<P>(c: Config, l: Ledger<P>, op: Op<P>)
    requires c.Valid() && Sound(c, l)
    ensures Sound(c, Apply(c, l, op))
  {
    match op
    case DoPush(sequence, payload) => PushKeepsSound(c, l, sequence, payload);
    case DoPop =>
      PopBounded(c, l.buffer);
      if Consumes(c, l.buffer) {
        PopBalances(c, l);
        PopPaces(c, l);
        PopKeepsOrder(c, l);
      }
    case DoReset =>
  }

  /** Order, conservation, pacing and the capacity bound hold after every run. */
  lemma {:induction false} EveryRunIsSound<P>(c: Config, ops: seq<Op<P>>)
    requires c.Valid()
    ensures Sound(c, Run(c, ops))
  {
    if ops == [] {
    } else {
      EveryRunIsSound(c, ops[..|ops| - 1]);
      ApplyKeepsSound(c, Run(c, ops[..|ops| - 1]), ops[|ops| - 1]);
    }
  }

  /** While nothing is thrown away, the number of real frames sacrificed is bounded by the pops. */
  lemma DropsAreRateLimited<P>(c: Config, ops: seq<Op<P>>)
    requires c.Valid() && c.interval.Some?
    ensures c.interval.value * Run(c, ops).buffer.tally.dropped <= Run(c, ops).pops + c.interval.value
  {
    EveryRunIsSound(c, ops);
  }

  /**
   Within an episode a number that was played is taken again exactly when it lies so far back that it forces a resync.
  */
  lemma PlayedAgainExactly<P>(c: Config, ops: seq<Op<P>>, i: nat, payload: P)
    requires c.Valid() && i < |Run(c, ops).episode| && Run(c, ops).episode[i].0 >= 0
    ensures var l := Run(c, ops);
            Push(c, l.buffer, l.episode[i].0, payload).1 <==> l.buffer.next - l.episode[i].0 > c.capacity
  {
    EveryRunIsSound(c, ops);
  }

  /**
   Ahead of the play position, any number within reach, played before or not, is taken exactly when it is not held and
   there is room.
  */
  lemma TakenAheadExactly<P>(c: Config, b: Jitter<P>, sequence: nat, payload: P)
    requires b.playing && b.next <= sequence <= b.next + c.capacity
    ensures Push(c, b, sequence, payload).1 <==> sequence !in b.frames && |b.frames| < c.capacity
  {
  }

  /** Outside of one, any number is taken, played before or not, exactly when it is not held and there is room. */
  lemma TakenWhileFillingExactly<P>(c: Config, b: Jitter<P>, sequence: nat, payload: P)
    requires !b.playing
    ensures Push(c, b, sequence, payload).1 <==> sequence !in b.frames && |b.frames| < c.capacity
  {
  }

  /**
   On its own the buffer plays a number a second time: once it has run dry it is filling again,
   and while filling it judges nothing as late.
  */
  lemma AloneItRepeats<P>(c: Config, frame: P)
    requires c == Config(1, 0, 50, Some(5))
    ensures var once := [DoPush(7, frame), DoPop];
            && Pop(c, Run(c, once[..1]).buffer).1 == Some(frame)
            && Pop(c, Run(c, once + [DoPop] + once[..1]).buffer).1 == Some(frame)
  {
    var once := [DoPush(7, frame), DoPop];
    assert once[..1] == [DoPush(7, frame)];
    var first := Run(c, once[..1]);
    assert Run(c, once[..1][..0]) == Opened(c);
    assert first.buffer.frames == map[7 := frame];
    assert first.buffer.frames.Keys == {7};
    var second := Run(c, once);
    assert second == Popped(c, first);
    assert Started(first.buffer).next == 7;
    assert Depth(Started(first.buffer)) == 1;
    assert second.buffer.frames == map[];
    var dry := once + [DoPop];
    assert dry[..2] == once;
    var third := Run(c, dry);
    assert third == Popped(c, second);
    assert !third.buffer.playing;
    var again := dry + once[..1];
    assert again[..3] == dry;
    var fourth := Run(c, again);
    assert fourth == Pushed(c, third, 7, frame);
    assert fourth.buffer.frames == map[7 := frame];
    assert fourth.buffer.frames.Keys == {7};
    assert Started(fourth.buffer).next == 7;
    assert Depth(Started(fourth.buffer)) == 1;
  }
}
