/** The states of one sender's jitter buffer and what each operation makes of them. */
module JitterSpec {
  import opened Common
  import opened Extremes

  datatype ConfigError = FrameTooShort | NegativeTarget | CapacityTooSmall | NegativeSlack | IntervalTooSmall

  /** Sizes in frames; `interval` is None when catch-up is off. */
  datatype Config = Config(target: nat, slack: nat, capacity: nat, interval: Option<nat>)
  {
    predicate Valid() {
      target >= 1 && capacity >= 1 && (interval.Some? ==> interval.value >= 1)
    }
  }

  /** How many frames of `frameMs` cover `ms`: the least number that does. */
  function CeilFrames(ms: nat, frameMs: int): (frames: nat)
    requires frameMs >= 1
    ensures frames * frameMs >= ms
    ensures frames > 0 ==> (frames - 1) * frameMs < ms
  {
    (ms + frameMs - 1) / frameMs
  }

  function MakeConfig(targetMs: int, frameMs: int, capacity: int, slackMs: int, interval: Option<int>)
    : (r: Result<Config, ConfigError>)
    ensures r.Ok? ==> r.value.Valid()
    ensures r.Ok? <==> frameMs >= 1 && targetMs >= 0 && capacity >= 1 && slackMs >= 0
                       && (interval.Some? ==> interval.value >= 1)
    ensures r.Ok? ==> r.value.target * frameMs >= targetMs
    ensures r.Ok? && r.value.target > 1 ==> (r.value.target - 1) * frameMs < targetMs
    ensures r.Ok? ==> r.value.slack * frameMs >= slackMs
    ensures r.Ok? && r.value.slack > 0 ==> (r.value.slack - 1) * frameMs < slackMs
    ensures r.Ok? ==> r.value.capacity == capacity && r.value.interval.Some? == interval.Some?
                      && (interval.Some? ==> r.value.interval.value == interval.value)
  {
    if frameMs < 1 then Err(FrameTooShort)
    else if targetMs < 0 then Err(NegativeTarget)
    else if capacity < 1 then Err(CapacityTooSmall)
    else if slackMs < 0 then Err(NegativeSlack)
    else if interval.Some? && interval.value < 1 then Err(IntervalTooSmall)
    else
      var frames := CeilFrames(targetMs, frameMs);
      Ok(Config(if frames > 1 then frames else 1, CeilFrames(slackMs, frameMs), capacity,
                if interval.Some? then Some(interval.value) else None))
  }

  datatype Tally = Tally(lost: nat, late: nat, duplicate: nat, overflow: nat, resync: nat, underrun: nat,
                         dropped: nat, skipped: nat)

  datatype Jitter<P> = Jitter(frames: map<int, P>, next: int, playing: bool, catchingUp: bool,
                              sinceDrop: nat, tally: Tally)

  function Fresh<P>(c: Config): Jitter<P> {
    Jitter(map[], 0, false, false, if c.interval.Some? then c.interval.value else 0, Tally(0, 0, 0, 0, 0, 0, 0, 0))
  }

  lemma NonEmpty<P>(m: map<int, P>)
    ensures |m| > 0 <==> m.Keys != {}
  {
    assert |m| == |m.Keys|;
  }

  /** From the next slot to the newest frame, gaps included. */
  function Depth<P>(b: Jitter<P>): int {
    if b.frames.Keys == {} then 0
    else Max(b.frames.Keys) - (if b.playing then b.next else Min(b.frames.Keys)) + 1
  }

  /** The first slot from `next` on that is filled, or where the excess over the target ends. */
  function SkipTo<P>(frames: map<int, P>, next: int, depth: int, target: int): (slot: int)
    ensures next <= slot
    ensures depth > target ==> depth - (slot - next) >= target
    ensures depth <= target ==> slot == next
    ensures forall k | next <= k < slot :: k !in frames
    ensures slot in frames || depth - (slot - next) <= target
    decreases depth - target
  {
    if depth > target && next !in frames then SkipTo(frames, next + 1, depth - 1, target) else next
  }

  function SkipMissingHead<P>(c: Config, b: Jitter<P>, depth: int): Jitter<P> {
    var slot := SkipTo(b.frames, b.next, depth, c.target);
    b.(next := slot, tally := b.tally.(skipped := b.tally.skipped + (slot - b.next)))
  }

  function DropOldest<P>(b: Jitter<P>): Jitter<P>
    requires b.next in b.frames
  {
    b.(frames := b.frames - {b.next}, next := b.next + 1, sinceDrop := 0,
    tally := b.tally.(dropped := b.tally.dropped + 1))
  }

  function Flagged<P>(c: Config, b: Jitter<P>, depth: int): Jitter<P> {
    if depth > c.target + c.slack then b.(catchingUp := true)
    else if depth <= c.target then b.(catchingUp := false)
    else b
  }

  /** Catching up, once flagged, skips the gap at the head. */
  function HeadSkipped<P>(c: Config, s: Jitter<P>): Jitter<P> {
    SkipMissingHead(c, Flagged(c, s, Depth(s)), Depth(s))
  }

  /** Whether it then drops a real frame as well. */
  predicate DropsFrame<P>(c: Config, s: Jitter<P>) {
    var skipped := HeadSkipped(c, s);
    var left := Depth(s) - (skipped.next - s.next);
    c.interval.Some? && left > c.target && left - |skipped.frames| < left - c.target
    && skipped.sinceDrop >= c.interval.value
  }

  function CatchUp<P>(c: Config, b: Jitter<P>): Jitter<P> {
    if c.interval.None? then b
    else if !Flagged(c, b, Depth(b)).catchingUp then Flagged(c, b, Depth(b))
    else if !DropsFrame(c, b) then HeadSkipped(c, b)
    else
      var skipped := HeadSkipped(c, b);
      SkipMissingHead(c, DropOldest(skipped), Depth(b) - (skipped.next - b.next) - 1)
  }

  function Push<P>(c: Config, b: Jitter<P>, sequence: nat, payload: P): (Jitter<P>, bool) {
    if b.playing && (sequence - b.next > c.capacity || b.next - sequence > c.capacity) then
      (b.(frames := map[sequence := payload], next := sequence, playing := false, catchingUp := false,
       tally := b.tally.(resync := b.tally.resync + 1)), true)
    else if b.playing && sequence < b.next then
      (b.(tally := b.tally.(late := b.tally.late + 1)), false)
    else if sequence in b.frames then
      (b.(tally := b.tally.(duplicate := b.tally.duplicate + 1)), false)
    else if |b.frames| >= c.capacity then
      (b.(tally := b.tally.(overflow := b.tally.overflow + 1)), false)
    else
      (b.(frames := b.frames[sequence := payload]), true)
  }

  /** Whether a pop uses up a slot; otherwise it reports an underrun or keeps filling. */
  predicate Consumes<P>(c: Config, b: Jitter<P>) {
    if b.playing then |b.frames| > 0 else |b.frames| >= c.target
  }

  function Started<P>(b: Jitter<P>): Jitter<P>
    requires b.frames.Keys != {}
  {
    if b.playing then b else b.(playing := true, next := Min(b.frames.Keys))
  }

  /** The buffer at the moment a consuming pop reads its slot. */
  function Ready<P>(c: Config, b: Jitter<P>): Jitter<P>
    requires c.Valid() && Consumes(c, b)
  {
    NonEmpty(b.frames);
    CatchUp(c, Started(b))
  }

  function Take<P>(r: Jitter<P>): Jitter<P> {
    r.(frames := r.frames - {r.next}, next := r.next + 1, sinceDrop := r.sinceDrop + 1,
    tally := if r.next in r.frames then r.tally else r.tally.(lost := r.tally.lost + 1))
  }

  function Pop<P>(c: Config, b: Jitter<P>): (Jitter<P>, Option<P>)
    requires c.Valid()
  {
    if Consumes(c, b) then
      var r := Ready(c, b);
      (Take(r), if r.next in r.frames then Some(r.frames[r.next]) else None)
    else if b.playing then
      (b.(playing := false, tally := b.tally.(underrun := b.tally.underrun + 1)), None)
    else (b, None)
  }

  function Reset<P>(b: Jitter<P>): Jitter<P> {
    b.(frames := map[], next := 0, playing := false, catchingUp := false)
  }

  // What every operation keeps.

  /** Never more frames than the capacity; while playing, nothing older than the next slot. */
  ghost predicate Bounded<P>(c: Config, b: Jitter<P>) {
    && |b.frames| <= c.capacity
    && (b.playing ==> forall k :: k in b.frames ==> k >= b.next)
    && (c.interval.Some? ==> b.sinceDrop >= 1)
  }

  lemma PushBounded<P>(c: Config, b: Jitter<P>, sequence: nat, payload: P)
    requires c.Valid() && Bounded(c, b)
    ensures Bounded(c, Push(c, b, sequence, payload).0)
  {
  }

  /** What catching up does to a playing buffer that holds a frame. */
  ghost predicate CaughtUp<P>(c: Config, s: Jitter<P>, r: Jitter<P>) {
    && r.playing
    && r.frames.Keys != {} && s.frames.Keys != {}
    && Max(r.frames.Keys) == Max(s.frames.Keys)
    && s.next <= r.next <= Max(s.frames.Keys)
    && (Depth(s) > c.target ==> Depth(r) >= c.target)
    && (Depth(s) <= c.target ==> r.frames == s.frames && r.next == s.next)
    && (forall k :: k in r.frames <==> k in s.frames && k >= r.next)
    && (forall k :: k in r.frames ==> r.frames[k] == s.frames[k])
    && r.next - s.next == (r.tally.dropped - s.tally.dropped) + (r.tally.skipped - s.tally.skipped)
    && |s.frames| - |r.frames| == r.tally.dropped - s.tally.dropped
    && r.tally == s.tally.(dropped := r.tally.dropped, skipped := r.tally.skipped)
    && r.tally.skipped >= s.tally.skipped
    && (|| (r.tally.dropped == s.tally.dropped && r.sinceDrop == s.sinceDrop)
        || (c.interval.Some? && r.tally.dropped == s.tally.dropped + 1 && s.sinceDrop >= c.interval.value
            && r.sinceDrop == 0))
  }

  /** A playing buffer that holds a frame and nothing older than its next slot. */
  ghost predicate Running<P>(b: Jitter<P>) {
    b.playing && b.frames.Keys != {} && forall k :: k in b.frames ==> k >= b.next
  }

  lemma SkipEffect<P>(c: Config, s: Jitter<P>)
    requires c.Valid() && Running(s)
    ensures var r := SkipMissingHead(c, s, Depth(s));
            && Running(r) && r.frames == s.frames && s.next <= r.next
            && Depth(r) == Depth(s) - (r.next - s.next)
            && (Depth(s) > c.target ==> Depth(r) >= c.target)
            && (Depth(s) <= c.target ==> r == s)
            && (Depth(r) > c.target ==> r.next in r.frames)
  {
  }

  lemma DropEffect<P>(s: Jitter<P>)
    requires Running(s) && s.next in s.frames && Depth(s) >= 2
    ensures var r := DropOldest(s);
            && Running(r) && Max(r.frames.Keys) == Max(s.frames.Keys)
            && Depth(r) == Depth(s) - 1 && |r.frames| == |s.frames| - 1
  {
    var r := DropOldest(s);
    var top := Max(s.frames.Keys);
    assert top in r.frames.Keys;
    assert s.frames.Keys == r.frames.Keys + {s.next};
  }

  /** The second half of catching up: one real frame goes, then the gap behind it. */
  lemma DropThenSkip<P>(c: Config, s: Jitter<P>)
    requires c.Valid() && Running(s) && s.next in s.frames && Depth(s) > c.target
    ensures var r := SkipMissingHead(c, DropOldest(s), Depth(s) - 1);
            && Running(r) && Max(r.frames.Keys) == Max(s.frames.Keys) && s.next < r.next
            && Depth(r) >= c.target && |r.frames| == |s.frames| - 1
            && (forall k :: k in r.frames <==> k in s.frames && k >= r.next)
            && (forall k :: k in r.frames ==> r.frames[k] == s.frames[k])
  {
    DropEffect(s);
    SkipEffect(c, DropOldest(s));
  }

  lemma HeadSkippedEffect<P>(c: Config, s: Jitter<P>)
    requires c.Valid() && Running(s) && c.interval.Some? && Flagged(c, s, Depth(s)).catchingUp
    ensures Depth(s) > c.target
    ensures CaughtUp(c, s, HeadSkipped(c, s)) && Running(HeadSkipped(c, s))
    ensures DropsFrame(c, s) ==> HeadSkipped(c, s).next in HeadSkipped(c, s).frames
  {
    SkipEffect(c, Flagged(c, s, Depth(s)));
  }

  lemma CatchUpEffect<P>(c: Config, s: Jitter<P>)
    requires c.Valid() && Running(s)
    ensures CaughtUp(c, s, CatchUp(c, s))
  {
    if c.interval.Some? && Flagged(c, s, Depth(s)).catchingUp {
      HeadSkippedEffect(c, s);
      var skipped := HeadSkipped(c, s);
      if DropsFrame(c, s) {
        DropThenSkip(c, skipped);
        assert CatchUp(c, s) == SkipMissingHead(c, DropOldest(skipped), Depth(skipped) - 1);
      }
    }
  }

  lemma StartedBounded<P>(c: Config, b: Jitter<P>)
    requires c.Valid() && Bounded(c, b) && Consumes(c, b)
    ensures b.frames.Keys != {}
    ensures Bounded(c, Started(b)) && Started(b).playing
    ensures CaughtUp(c, Started(b), Ready(c, b))
  {
    NonEmpty(b.frames);
    CatchUpEffect(c, Started(b));
  }

  lemma TakeSize<P>(r: Jitter<P>)
    ensures |Take(r).frames| == |r.frames| - (if r.next in r.frames then 1 else 0)
  {
    var t := Take(r);
    if r.next in r.frames {
      assert r.frames.Keys == t.frames.Keys + {r.next};
    } else {
      assert t.frames == r.frames;
    }
  }

  lemma PopBounded<P>(c: Config, b: Jitter<P>)
    requires c.Valid() && Bounded(c, b)
    ensures Bounded(c, Pop(c, b).0)
  {
    if Consumes(c, b) {
      StartedBounded(c, b);
      TakeSize(Ready(c, b));
    }
  }

  /**
   Catch-up is gentle: it starts and stops only above the target, never takes the depth below
   the target, and never empties the buffer.
  */
  lemma CatchUpIsGentle<P>(c: Config, s: Jitter<P>)
    requires c.Valid() && Running(s)
    ensures CatchUp(c, s).frames.Keys != {}
    ensures Depth(s) <= c.target ==> CatchUp(c, s).frames == s.frames && CatchUp(c, s).next == s.next
    ensures Depth(s) > c.target ==> c.target <= Depth(CatchUp(c, s)) <= Depth(s)
    ensures CatchUp(c, s).tally.dropped <= s.tally.dropped + 1
  {
    CatchUpEffect(c, s);
  }

  // What each operation does, from the outside.

  /**
   A far number starts over with that one frame, filling; otherwise a number is late, held already, too much, or
   taken.
  */
  lemma PushDecides<P>(c: Config, b: Jitter<P>, sequence: nat, payload: P)
    ensures var (after, ok) := Push(c, b, sequence, payload);
            var far := b.playing && !(b.next - c.capacity <= sequence <= b.next + c.capacity);
            var late := b.playing && b.next - c.capacity <= sequence < b.next;
            && (after.tally.resync > b.tally.resync <==> far)
            && (after.tally.late > b.tally.late <==> late)
            && (after.tally.duplicate > b.tally.duplicate <==> !far && !late && sequence in b.frames)
            && (after.tally.overflow > b.tally.overflow
                <==> !far && !late && sequence !in b.frames && |b.frames| >= c.capacity)
            && (ok <==> sequence in after.frames && after.frames[sequence] == payload && (sequence in b.frames ==> far))
            && (far ==> after.frames == map[sequence as int := payload] && !after.playing && !after.catchingUp && ok)
            && (!far ==> after.playing == b.playing && after.next == b.next && after.catchingUp == b.catchingUp
                         && forall k :: k in b.frames ==> k in after.frames && after.frames[k] == b.frames[k])
            && (!far && !ok ==> after.frames == b.frames)
  {
  }

  /**
   Playback waits for the target: with fewer frames a pop of a buffer that is not playing hands out nothing and
   changes nothing, with the target or more it starts playing at the oldest frame.
  */
  lemma PlaybackWaits<P>(c: Config, b: Jitter<P>)
    requires c.Valid() && Bounded(c, b) && !b.playing
    ensures |b.frames| < c.target ==> Pop(c, b) == (b, None)
    ensures |b.frames| >= c.target
            ==> b.frames.Keys != {} && Pop(c, b).0.playing && Started(b).next == Min(b.frames.Keys)
  {
    NonEmpty(b.frames);
    if |b.frames| >= c.target {
      StartedBounded(c, b);
    }
  }

  /** After a reset nothing is held, and the buffer fills from the start; the counters stay. */
  lemma ResetForgets<P>(b: Jitter<P>)
    ensures var after := Reset(b);
            after.frames == map[] && !after.playing && !after.catchingUp && after.next == 0 && after.tally == b.tally
  {
  }

  /** A playing buffer that has run dry hands out nothing, counts an underrun, and fills again. */
  lemma RunningDry<P>(c: Config, b: Jitter<P>)
    requires c.Valid() && b.playing && |b.frames| == 0
    ensures Pop(c, b) == (b.(playing := false, tally := b.tally.(underrun := b.tally.underrun + 1)), None)
  {
  }

  /**
   A playing buffer that is not catching up hands out the next number's frame, or counts it as lost; nothing else
   goes.
  */
  lemma NextOneIsPlayed<P>(c: Config, b: Jitter<P>)
    requires c.Valid() && Running(b)
    requires c.interval.None? || Depth(b) <= c.target || (!b.catchingUp && Depth(b) <= c.target + c.slack)
    ensures var (after, frame) := Pop(c, b);
            && frame == (if b.next in b.frames then Some(b.frames[b.next]) else None)
            && after.next == b.next + 1 && after.frames == b.frames - {b.next} && after.playing
            && after.tally == (if b.next in b.frames then b.tally else b.tally.(lost := b.tally.lost + 1))
  {
    NonEmpty(b.frames);
  }

  /**
   Catch-up has hysteresis: it begins above target and slack, goes on above the target, and does nothing otherwise.
  */
  lemma HysteresisExactly<P>(c: Config, s: Jitter<P>)
    requires c.Valid() && Running(s) && c.interval.Some?
    ensures CatchUp(c, s).catchingUp <==> Depth(s) > c.target + c.slack || (s.catchingUp && Depth(s) > c.target)
    ensures !CatchUp(c, s).catchingUp ==> CatchUp(c, s) == s.(catchingUp := false)
  {
  }

  /** There are at most as many frames as slots. */
  lemma DepthCounts<P>(s: Jitter<P>)
    requires Running(s)
    ensures |s.frames| <= Depth(s)
  {
    var slots := Range(s.next, Max(s.frames.Keys) + 1);
    assert s.frames.Keys <= slots;
    SubsetSize(s.frames.Keys, slots);
  }

  /**
   A real frame is dropped exactly when catch-up is on, more frames than the target are held, and the last drop is
   long ago.
  */
  lemma DropsExactly<P>(c: Config, s: Jitter<P>)
    requires c.Valid() && Running(s) && c.interval.Some?
    ensures CatchUp(c, s).tally.dropped == s.tally.dropped + 1
       <==> CatchUp(c, s).catchingUp && |s.frames| > c.target && s.sinceDrop >= c.interval.value
    ensures CatchUp(c, s).catchingUp && Depth(CatchUp(c, s)) > c.target ==> CatchUp(c, s).next in CatchUp(c, s).frames
  {
    DepthCounts(s);
    CatchUpEffect(c, s);
    if Flagged(c, s, Depth(s)).catchingUp {
      SkipEffect(c, Flagged(c, s, Depth(s)));
      DepthCounts(HeadSkipped(c, s));
      if DropsFrame(c, s) {
        DropEffect(HeadSkipped(c, s));
        SkipEffect(c, DropOldest(HeadSkipped(c, s)));
      }
    }
  }
}
