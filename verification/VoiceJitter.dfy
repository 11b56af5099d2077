/** The jitter buffer of one sender: reordering, underruns, resyncs and catch-up. */
module VoiceJitter {
  import opened Common
  import opened Extremes
  import S = JitterSpec
  import opened JitterSpec

  class JitterBuffer<P> {
    const config: Config
    var frames: map<int, P>
    var next: int
    var playing: bool
    var catchingUp: bool
    var sinceDrop: nat
    var tally: Tally

    function State(): Jitter<P>
      reads this
    {
      Jitter(frames, next, playing, catchingUp, sinceDrop, tally)
    }

    ghost predicate Valid()
      reads this
    {
      config.Valid() && Bounded(config, State())
    }

    constructor (config: Config)
      requires config.Valid()
      ensures Valid() && this.config == config && State() == Fresh(config)
    {
      this.config := config;
      frames, next, playing, catchingUp := map[], 0, false, false;
      sinceDrop := if config.interval.Some? then config.interval.value else 0;
      tally := Tally(0, 0, 0, 0, 0, 0, 0, 0);
    }

    method Restart(sequence: nat, payload: P)
      modifies this
      ensures State() == old(State()).(frames := map[sequence := payload], next := sequence, playing := false,
                         catchingUp := false, tally := tally)
      ensures tally == old(tally).(resync := old(tally).resync + 1)
    {
      tally := tally.(resync := tally.resync + 1);
      frames := map[sequence := payload];
      next := sequence;
      playing, catchingUp := false, false;
    }

    method Push(sequence: nat, payload: P) returns (accepted: bool)
      requires Valid()
      modifies this
      ensures Valid()
      ensures (State(), accepted) == S.Push(config, old(State()), sequence, payload)
    {
      S.PushBounded(config, State(), sequence, payload);
      if playing && (sequence - next > config.capacity || next - sequence > config.capacity) {
        Restart(sequence, payload);
        return true;
      }
      if playing && sequence < next {
        tally := tally.(late := tally.late + 1);
        return false;
      }
      if sequence in frames {
        tally := tally.(duplicate := tally.duplicate + 1);
        return false;
      }
      if |frames| >= config.capacity {
        tally := tally.(overflow := tally.overflow + 1);
        return false;
      }
      frames := frames[sequence := payload];
      return true;
    }

    /** The tail of a pop: hands out the slot whose turn it is, or counts it as lost. */
    method TakeNext() returns (frame: Option<P>)
      modifies this
      ensures State() == Take(old(State()))
      ensures frame == if old(next) in old(frames) then Some(old(frames)[old(next)]) else None
    {
      frame := if next in frames then Some(frames[next]) else None;
      frames := frames - {next};
      next := next + 1;
      sinceDrop := sinceDrop + 1;
      if frame.None? {
        tally := tally.(lost := tally.lost + 1);
      }
    }

    method SkipMissing(depth: int) returns (left: int)
      modifies this
      ensures State() == SkipMissingHead(config, old(State()), depth)
      ensures left == depth - (next - old(next))
    {
      left := depth;
      while left > config.target && next !in frames
        invariant left == depth - (next - old(next)) && next >= old(next)
        invariant SkipTo(frames, next, left, config.target) == SkipTo(frames, old(next), depth, config.target)
        invariant State() == old(State()).(next := next, tally := tally)
        invariant tally == old(tally).(skipped := old(tally).skipped + (next - old(next)))
        decreases left - config.target
      {
        next := next + 1;
        tally := tally.(skipped := tally.skipped + 1);
        left := left - 1;
      }
    }

    method DropHead(depth: int)
      requires next in frames
      modifies this
      ensures State() == SkipMissingHead(config, DropOldest(old(State())), depth - 1)
    {
      frames := frames - {next};
      next := next + 1;
      tally := tally.(dropped := tally.dropped + 1);
      sinceDrop := 0;
      assert State() == DropOldest(old(State()));
      var _ := SkipMissing(depth - 1);
    }

    method CatchUp()
      requires config.Valid()
      modifies this
      ensures State() == S.CatchUp(config, old(State()))
    {
      if config.interval.None? {
        return;
      }
      var depth := Depth(State());
      if depth > config.target + config.slack {
        catchingUp := true;
      } else if depth <= config.target {
        catchingUp := false;
      }
      if !catchingUp {
        return;
      }
      depth := SkipMissing(depth);
      assert State() == HeadSkipped(config, old(State()));
      var excess := depth - config.target;
      var holes := depth - |frames|;
      assert excess > 0 && holes < excess && sinceDrop >= config.interval.value
        <==> DropsFrame(config, old(State()));
      if excess > 0 && holes < excess && sinceDrop >= config.interval.value {
        // The skip stopped with excess left, so the head is filled: the deletion finds its key.
        DropHead(depth);
      }
    }

    /** A pop that uses up a slot: playback begins if it has not, catches up, and reads its slot. */
    method Consume() returns (frame: Option<P>)
      requires config.Valid() && Consumes(config, State())
      modifies this
      ensures (State(), frame) == S.Pop(config, old(State()))
    {
      NonEmpty(frames);
      if !playing {
        playing, next := true, Min(frames.Keys);
      }
      CatchUp();
      assert State() == Ready(config, old(State()));
      frame := TakeNext();
    }

    method Pop() returns (frame: Option<P>)
      requires Valid()
      modifies this
      ensures Valid()
      ensures (State(), frame) == S.Pop(config, old(State()))
    {
      S.PopBounded(config, State());
      if playing && |frames| == 0 {
        tally := tally.(underrun := tally.underrun + 1);
        playing := false;
        return None;
      }
      if !playing && |frames| < config.target {
        return None;
      }
      frame := Consume();
    }

    method Clear()
      requires Valid()
      modifies this
      ensures Valid() && State() == Reset(old(State()))
    {
      frames := map[];
      next := 0;
      playing, catchingUp := false, false;
    }
  }
}
