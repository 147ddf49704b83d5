/** `LED_Fader`: the current channel vector, a linear fade toward a target,
    the global brightness, and the fan-out of every frame to the PCA9685
    chips (chip k at address 0x40 + k drives channels 16k .. 16k + 15). */
module Fading {
  import opened Wrappers
  import opened Vectors
  import opened Pca9685

  /** First chip address; chip k answers at `ChipBase + k`. */
  const ChipBase: int := 0x40

  /** How much of a fade of length `time` that started at `start` is due at
      `now`: the time elapsed, clamped to `time`. */
  function Elapsed(now: real, start: real, time: real): (r: real)
    ensures r <= time
    ensures now - start >= time ==> r == time
    ensures now - start < time ==> r == now - start
  {
    if now - start >= time then time else now - start
  }

  /** The block writes of one `chip_update` for the duty values `pwm`:
      one block per chip, in chip order. */
  function FrameWrites(pwm: seq<int>, count: nat): (r: seq<Write>)
    requires |pwm| >= 16 * count
    ensures |r| == count
  {
    if count == 0 then []
    else
      var m := 16 * (count - 1);
      FrameWrites(pwm, count - 1) + [BlockData(ChipBase + count - 1, LedBase(0), EncodeBlock(pwm[m..m + 16]))]
  }

  /** The duty values a sequence of frame writes carries, chip after chip. */
  function DecodeFrame(ws: seq<Write>): seq<int> {
    if ws == [] then []
    else DecodeFrame(ws[..|ws| - 1]) + (if ws[|ws| - 1].BlockData? then DecodeBlock(ws[|ws| - 1].bytes) else [])
  }

  lemma DecodeFrameSnoc(ws: seq<Write>, addr: int, reg: int, bytes: seq<Byte>)
    ensures DecodeFrame(ws + [BlockData(addr, reg, bytes)]) == DecodeFrame(ws) + DecodeBlock(bytes)
  {
    assert (ws + [BlockData(addr, reg, bytes)])[..|ws|] == ws;
  }

  /** Chip k of a frame is addressed at 0x40 + k, register LEDnBASE(0),
      and receives the encoded duty values of channels 16k .. 16k + 15. */
  lemma {:induction false} FrameAddresses(pwm: seq<int>, count: nat)
    requires |pwm| >= 16 * count
    ensures forall k :: 0 <= k < count ==>
      FrameWrites(pwm, count)[k] == BlockData(ChipBase + k, LedBase(0), EncodeBlock(pwm[16 * k..16 * k + 16]))
  {
    if count > 0 {
      FrameAddresses(pwm, count - 1);
    }
  }

  lemma ChipRoundTrip(pwm: seq<int>, m: nat)
    requires m + 16 <= |pwm|
    requires forall i :: 0 <= i < |pwm| ==> IsDuty(pwm[i])
    ensures DecodeBlock(EncodeBlock(pwm[m..m + 16])) == pwm[m..m + 16]
  {
    var tail := pwm[m..m + 16];
    assert forall i :: 0 <= i < |tail| ==> tail[i] == pwm[m + i];
    EncodeBlockRoundTrip(tail);
  }

  lemma PrefixSnoc(pwm: seq<int>, m: nat)
    requires m + 16 <= |pwm|
    ensures pwm[..m + 16] == pwm[..m] + pwm[m..m + 16]
  {
  }

  /** Adding chip `count - 1` to a frame that round-trips. */
  lemma FrameStep(pwm: seq<int>, count: nat)
    requires 0 < count && 16 * count <= |pwm|
    requires forall i :: 0 <= i < |pwm| ==> IsDuty(pwm[i])
    requires DecodeFrame(FrameWrites(pwm, count - 1)) == pwm[..16 * (count - 1)]
    ensures DecodeFrame(FrameWrites(pwm, count)) == pwm[..16 * count]
  {
    var m := 16 * (count - 1);
    var w := BlockData(ChipBase + count - 1, LedBase(0), EncodeBlock(pwm[m..m + 16]));
    ChipRoundTrip(pwm, m);
    DecodeFrameSnoc(FrameWrites(pwm, count - 1), w.addr, w.reg, w.bytes);
    PrefixSnoc(pwm, m);
  }

  /** One frame carries exactly the duty vector: reading the chips' blocks
      back, in chip order, gives the first `16 * count` duty values. */
  lemma {:induction false} FrameRoundTrip(pwm: seq<int>, count: nat)
    requires |pwm| >= 16 * count
    requires forall i :: 0 <= i < |pwm| ==> IsDuty(pwm[i])
    ensures DecodeFrame(FrameWrites(pwm, count)) == pwm[..16 * count]
  {
    if count > 0 {
      FrameRoundTrip(pwm, count - 1);
      FrameStep(pwm, count);
    }
  }

  /** The state of a fade that was started: `c == origin + delta * done`
      with `delta == (target - origin) / time`; `done` stays at most `time`,
      below it while the fade is busy and equal to it once it is over. */
  predicate FadeOk(busy: bool, time: real, done: real, delta: seq<real>, origin: seq<real>, target: seq<real>, c: seq<real>) {
    time > 0.0 && |origin| == |c| && |target| == |c| &&
    delta == VectorDiff(target, origin, 1.0 / time) &&
    done <= time &&
    c == Mac(origin, delta, done) &&
    (busy ==> done < time) &&
    (!busy ==> done == time)
  }

  /** One `fade_update` tick on a busy fade started at `start`: adding
      `delta * (Elapsed - done)` keeps the invariant with `done` moved to
      the elapsed time, the fade is over exactly when `time` has passed,
      and then the vector is exactly the target. */
  lemma FadeAdvance(time: real, done: real, delta: seq<real>, origin: seq<real>, target: seq<real>, c: seq<real>, start: real, now: real)
    requires FadeOk(true, time, done, delta, origin, target, c)
    ensures |delta| >= |c|
    ensures FadeOk(now - start < time, time, Elapsed(now, start, time), delta, origin, target,
                   Mac(c, delta, Elapsed(now, start, time) - done))
    ensures now - start >= time ==> Mac(c, delta, Elapsed(now, start, time) - done) == target
  {
    var dt := Elapsed(now, start, time);
    MacTwice(origin, delta, done, dt - done);
    assert done + (dt - done) == dt;
    if now - start >= time {
      DiffLandsOnTarget(target, origin, time);
      assert target[..|origin|] == target;
    }
  }

  /** The start-up writes of `count` chips: each chip's `init_chip`, in
      chip order. */
  function StartupWrites(count: nat): seq<Write> {
    if count == 0 then [] else StartupWrites(count - 1) + InitWrites(ChipBase + count - 1)
  }

  class Fader {
    const nchans: nat
    const nchips: nat
    const chips: seq<Chip>
    const curr: array<real>
    /** The bus every chip writes to (the source keeps it only in the chips). */
    ghost const bus: Bus

    var brightness: real
    /** `fade_delta`: per-second increment of every channel. */
    var fadeDelta: seq<real>
    /** `fade_start`: None when idle. */
    var fadeStart: Option<real>
    /** `fade_time`: total length of the last fade. */
    var fadeTime: real
    /** `fade_done`: how much of `fade_time` is already applied to `curr`. */
    var fadeDone: real

    /** A fade was started at least once (before that the source's fade
        fields hold None, which nothing reads). */
    ghost var started: bool
    /** `curr` when the last fade started, and that fade's target. */
    ghost var origin: seq<real>
    ghost var target: seq<real>

    /** The chips: one per 16 channels, at consecutive addresses on one bus,
        each with its own register buffer. */
    ghost function Regs(): set<array2<Byte>> {
      set k | 0 <= k < |chips| :: chips[k].regs
    }

    ghost predicate Wired()
      reads Regs()
    {
      curr.Length == nchans && 16 * nchips == nchans && |chips| == nchips &&
      (forall k :: 0 <= k < nchips ==> chips[k].bus == bus && chips[k].addr == ChipBase + k && chips[k].Valid()) &&
      (forall i, j :: 0 <= i < j < nchips ==> chips[i].regs != chips[j].regs)
    }

    /** The fade invariant, over the fields (see `FadeOk`). */
    ghost predicate FadeInv()
      reads this, curr
    {
      (fadeStart.Some? ==> started) &&
      (started ==> FadeOk(fadeStart.Some?, fadeTime, fadeDone, fadeDelta, origin, target, curr[..]))
    }

    ghost predicate Valid()
      reads this, curr, Regs()
    {
      Wired() && FadeInv()
    }

    /** `is_busy()`. */
    predicate IsBusy()
      reads this
    {
      fadeStart.Some?
    }

    /** `is_busy()` holds exactly while a started fade has time left. */
    lemma BusyWhileTimeLeft()
      requires Valid()
      ensures IsBusy() <==> started && fadeDone < fadeTime
    {
    }

    /** Once a fade has run to its end, the vector is exactly its target. */
    lemma IdleAtTarget()
      requires Valid() && started && !IsBusy()
      ensures curr[..] == target
    {
      DiffLandsOnTarget(target, origin, fadeTime);
      assert target[..|origin|] == target;
    }

    /** `LED_Fader(bus, nchan, bright)`: one chip per 16 channels, created
        (and so initialised) in address order, and an all-zero vector. The
        channel count must be a multiple of 16: `update` refuses a shorter
        last slice. */
    constructor (bus: Bus, nchan: nat, bright: real)
      requires nchan % 16 == 0
      modifies bus
      ensures Valid() && this.bus == bus && nchans == nchan && nchips == nchan / 16
      ensures brightness == bright && !IsBusy() && !started
      ensures fresh(curr) && fresh(Regs()) && curr[..] == Zeros(nchan)
      ensures bus.log == old(bus.log) + StartupWrites(nchips)
    {
      var count := (nchan + 15) / 16;
      assert 16 * count == nchan by {
        assert nchan == 16 * (nchan / 16);
      }
      var cs: seq<Chip> := [];
      var k := 0;
      while k < count
        invariant 0 <= k <= count && |cs| == k
        invariant forall j :: 0 <= j < k ==> cs[j].bus == bus && cs[j].addr == ChipBase + j && cs[j].Valid()
        invariant forall j :: 0 <= j < k ==> fresh(cs[j].regs)
        invariant forall i, j :: 0 <= i < j < k ==> cs[i].regs != cs[j].regs
        invariant bus.log == old(bus.log) + StartupWrites(k)
      {
        var c := new Chip(bus, ChipBase + k);
        cs := cs + [c];
        k := k + 1;
      }
      nchans := nchan;
      nchips := count;
      chips := cs;
      curr := new real[nchan](_ => 0.0);
      this.bus := bus;
      brightness := bright;
      fadeDelta := [];
      fadeStart := None;
      fadeTime := 0.0;
      fadeDone := 0.0;
      started := false;
      origin := [];
      target := [];
    }

    /** `start_fade(tgt, now, fade_time)`: a fresh fade from the current
        vector toward `tgt` (zip truncates `tgt` to the channel count),
        replacing any fade in flight; the vector itself does not move. */
    method StartFade(tgt: seq<real>, now: real, time: real)
      requires Valid() && time > 0.0 && |tgt| >= nchans
      modifies this
      ensures Valid() && IsBusy() && started
      ensures fadeDelta == VectorDiff(tgt, curr[..], 1.0 / time)
      ensures fadeStart == Some(now) && fadeDone == 0.0 && fadeTime == time
      ensures origin == curr[..] == old(curr[..]) && target == tgt[..nchans]
      ensures brightness == old(brightness)
    {
      DiffTruncates(tgt, curr[..], 1.0 / time);
      MacZero(curr[..], VectorDiff(tgt, curr[..], 1.0 / time));
      fadeDelta := VectorDiff(tgt, curr[..], 1.0 / time);
      fadeStart := Some(now);
      fadeDone := 0.0;
      fadeTime := time;
      started := true;
      origin := curr[..];
      target := tgt[..nchans];
    }

    /** `chip_update()`: the current vector through the brightness curve,
        then one block per chip, in chip order. Nothing in the fader
        changes. */
    method ChipUpdate()
      requires Wired()
      modifies bus, Regs()
      ensures Wired()
      ensures bus.log == old(bus.log) + FrameWrites(NormalizedToPwm(curr[..], brightness), nchips)
    {
      var ledPwm := NormalizedToPwm(curr[..], brightness);
      var k := 0;
      while k < nchips
        invariant 0 <= k <= nchips
        invariant forall j :: 0 <= j < nchips ==> chips[j].Valid()
        invariant bus.log == old(bus.log) + FrameWrites(ledPwm, k)
      {
        chips[k].Update(ledPwm[k * 16..(k + 1) * 16]);
        k := k + 1;
      }
    }

    /** `set_brightness(bright)`: only the brightness changes, and the
        unchanged vector is pushed again at once. */
    method SetBrightness(bright: real)
      requires Valid()
      modifies this, bus, Regs()
      ensures Valid() && brightness == bright
      ensures fadeDelta == old(fadeDelta) && fadeStart == old(fadeStart) && fadeTime == old(fadeTime) && fadeDone == old(fadeDone)
      ensures started == old(started) && origin == old(origin) && target == old(target)
      ensures curr[..] == old(curr[..])
      ensures bus.log == old(bus.log) + FrameWrites(NormalizedToPwm(curr[..], bright), nchips)
    {
      brightness := bright;
      ChipUpdate();
    }

    /** `fade_update(now)`: advance the vector to the part of the fade due
        at `now` and push it; at or past the end the fade is over and the
        vector is exactly the target. The increments of successive calls
        add up to `fade_time`, whatever the tick times. */
    method FadeUpdate(now: real)
      requires Valid() && IsBusy()
      modifies this, curr, bus, Regs()
      ensures Valid()
      ensures fadeDone == Elapsed(now, old(fadeStart.value), fadeTime)
      ensures IsBusy() <==> now - old(fadeStart.value) < fadeTime
      ensures IsBusy() ==> fadeStart == old(fadeStart)
      ensures !IsBusy() ==> curr[..] == target
      ensures now >= old(fadeStart.value) ==> 0.0 <= fadeDone
      ensures fadeDelta == old(fadeDelta) && fadeTime == old(fadeTime) && brightness == old(brightness)
      ensures started && origin == old(origin) && target == old(target)
      ensures curr[..] == Mac(origin, fadeDelta, fadeDone)
      ensures bus.log == old(bus.log) + FrameWrites(NormalizedToPwm(curr[..], brightness), nchips)
    {
      FadeAdvance(fadeTime, fadeDone, fadeDelta, origin, target, curr[..], fadeStart.value, now);
      var deltaT := now - fadeStart.value;
      if deltaT >= fadeTime {
        fadeStart := None;
        deltaT := fadeTime;
      }
      VectorMac(curr, fadeDelta, deltaT - fadeDone);
      ChipUpdate();
      fadeDone := deltaT;
    }
  }
}

/** A worked fade on one chip: from dark toward channels 1 and 3 lit, over
    2 s starting at t = 0, ticked at t = 1 and t = 2. */
module FadeExample {
  import opened Vectors
  import opened Pca9685
  import opened Fading

  method TwoTicks(bus: Bus) returns (mid: seq<real>, midBusy: bool, last: seq<real>, lastBusy: bool)
    modifies bus
    ensures mid == [0.0, 0.5, 0.0, 0.5] + Zeros(12) && midBusy
    ensures last == [0.0, 1.0, 0.0, 1.0] + Zeros(12) && !lastBusy
  {
    var tgt := [0.0, 1.0, 0.0, 1.0] + Zeros(12);
    var frame := new Fader(bus, 16, 1.0);
    frame.StartFade(tgt, 0.0, 2.0);
    frame.FadeUpdate(1.0);
    mid := frame.curr[..];
    midBusy := frame.IsBusy();
    frame.FadeUpdate(2.0);
    last := frame.curr[..];
    lastBusy := frame.IsBusy();
    assert tgt[..16] == tgt;
  }
}
