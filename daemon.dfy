/** The daemon around the fader: the keypad (`Evdev_Keyboard.poll`, which
    reports a held key once), the key table, and one iteration of the main
    loop, which advances a running fade, polls the keypad and dispatches
    the key (or the two-minute idle timer) to a new fade or a brightness
    step. The clock, `random` and the keypad device are inputs. */
module Daemon {
  import opened Wrappers
  import opened Vectors
  import opened Fading

  // ---------------------------------------------------------------------
  // Evdev_Keyboard.poll

  /** What one `poll` sees of the device: `select` timed out, or the device
      was readable and, after draining its queue, `active_keys()` lists
      these key codes (in evdev's order). */
  datatype PollInput = Timeout | Ready(active: seq<int>)

  /** The key `poll` returns, given `last_active` before the call and
      whether a keyboard was opened: the first held key, but only when it
      differs from the one reported last. */
  function KeyEdge(present: bool, last: Option<int>, input: PollInput): (r: Option<int>)
    ensures r.Some? <==> present && input.Ready? && |input.active| > 0 && last != Some(input.active[0])
    ensures r.Some? ==> r == Some(input.active[0])
  {
    if !present || input.Timeout? || input.active == [] then None
    else if Some(input.active[0]) != last then Some(input.active[0])
    else None
  }

  /** `last_active` after the call: the first held key, None once every key
      is released, unchanged on a timeout or without a keyboard. */
  function NextLast(present: bool, last: Option<int>, input: PollInput): (r: Option<int>)
    ensures !present || input.Timeout? ==> r == last
    ensures present && input.Ready? ==> r == if input.active == [] then None else Some(input.active[0])
    ensures KeyEdge(present, last, input).Some? ==> r == KeyEdge(present, last, input)
  {
    if !present || input.Timeout? then last
    else if input.active == [] then None
    else Some(input.active[0])
  }

  class Keyboard {
    /** A keyboard was found and grabbed when the daemon started. */
    const present: bool
    /** `last_active`: the key reported last, None after a release. */
    var lastActive: Option<int>

    constructor (present: bool)
      ensures this.present == present && lastActive == None
    {
      this.present := present;
      lastActive := None;
    }

    /** `poll(sleeptime)`; the time it waits is not modelled. */
    method Poll(input: PollInput) returns (key: Option<int>)
      modifies this
      ensures key == KeyEdge(present, old(lastActive), input)
      ensures lastActive == NextLast(present, old(lastActive), input)
    {
      if !present {
        return None;
      }
      if input.Ready? {
        var ak := input.active;
        if ak == [] {
          lastActive := None;
          return None;
        }
        if Some(ak[0]) != lastActive {
          lastActive := Some(ak[0]);
          return Some(ak[0]);
        }
      }
      return None;
    }
  }

  /** The keys `poll` returns over successive calls, from `last_active`
      equal to `last`. */
  function Reports(present: bool, last: Option<int>, inputs: seq<PollInput>): (r: seq<Option<int>>)
    ensures |r| == |inputs|
    decreases |inputs|
  {
    if inputs == [] then []
    else [KeyEdge(present, last, inputs[0])] + Reports(present, NextLast(present, last, inputs[0]), inputs[1..])
  }

  /** Key `k` stays the first held key: every readable poll lists it first. */
  predicate Holds(k: int, inputs: seq<PollInput>) {
    forall i :: 0 <= i < |inputs| ==> inputs[i].Timeout? || (|inputs[i].active| > 0 && inputs[i].active[0] == k)
  }

  /** Only timeouts before poll `i`. */
  predicate QuietBefore(inputs: seq<PollInput>, i: int) {
    i <= |inputs| && forall j :: 0 <= j < i ==> inputs[j].Timeout?
  }

  /** A held key is reported once: while `k` stays held, `poll` returns
      `Some(k)` at the first readable poll, provided `k` was not the key
      reported last, and None at every other poll. */
  lemma {:induction false} HeldKeyReportedOnce(present: bool, last: Option<int>, inputs: seq<PollInput>, k: int)
    requires Holds(k, inputs)
    ensures forall i :: 0 <= i < |inputs| ==>
      (Reports(present, last, inputs)[i].Some? <==> present && inputs[i].Ready? && last != Some(k) && QuietBefore(inputs, i))
    ensures forall i :: 0 <= i < |inputs| && Reports(present, last, inputs)[i].Some? ==> Reports(present, last, inputs)[i] == Some(k)
    decreases |inputs|
  {
    if inputs != [] {
      var rest := inputs[1..];
      var next := NextLast(present, last, inputs[0]);
      assert Holds(k, rest) by {
        forall i | 0 <= i < |rest|
          ensures rest[i].Timeout? || (|rest[i].active| > 0 && rest[i].active[0] == k)
        {
          assert rest[i] == inputs[i + 1];
        }
      }
      HeldKeyReportedOnce(present, next, rest, k);
      var r := Reports(present, last, inputs);
      forall i | 1 <= i < |inputs|
        ensures r[i] == Reports(present, next, rest)[i - 1]
        ensures QuietBefore(inputs, i) <==> inputs[0].Timeout? && QuietBefore(rest, i - 1)
      {
        if QuietBefore(inputs, i) {
          forall j | 0 <= j < i - 1
            ensures rest[j].Timeout?
          {
            assert rest[j] == inputs[j + 1];
          }
        }
        if inputs[0].Timeout? && QuietBefore(rest, i - 1) {
          forall j | 0 <= j < i
            ensures inputs[j].Timeout?
          {
            if j > 0 {
              assert inputs[j] == rest[j - 1];
            }
          }
        }
      }
    }
  }

  /** Releasing every key re-arms the edge: the next press of the same key
      is reported again. */
  lemma ReleaseRearms(last: Option<int>, k: int, more: seq<int>)
    ensures Reports(true, last, [Ready([k] + more), Ready([]), Ready([k] + more)]) ==
      [if last == Some(k) then None else Some(k), None, Some(k)]
  {
    var press, release := Ready([k] + more), Ready([]);
    assert [press, release, press][1..] == [release, press];
    assert [release, press][1..] == [press];
    assert [press][1..] == [];
    assert Reports(true, None, [press]) == [Some(k)];
    assert Reports(true, Some(k), [release, press]) == [None, Some(k)];
  }

  // ---------------------------------------------------------------------
  // key_actions

  /** The action a key is bound to. */
  datatype Action = Digit(d: nat) | Shuffle | Brighten | Dim

  /** `key_actions`: the numeric keypad's digit keys, `.` for a random
      vector, `+` and `-` for brightness. */
  const KeyActions: map<int, Action> := map[
    82 := Digit(0), 79 := Digit(1), 80 := Digit(2), 81 := Digit(3),
    75 := Digit(4), 76 := Digit(5), 77 := Digit(6),
    71 := Digit(7), 72 := Digit(8), 73 := Digit(9),
    83 := Shuffle, 78 := Brighten, 74 := Dim]

  /** `key_actions.get(key)`: None for no key and for an unbound key. */
  function ActionOf(key: Option<int>): (r: Option<Action>)
    ensures r.Some? <==> key.Some? && key.value in KeyActions
    ensures r.Some? ==> r.value == KeyActions[key.value]
  {
    if key.Some? && key.value in KeyActions then Some(KeyActions[key.value]) else None
  }

  /** The table binds exactly the keypad codes 71..83, with `.` (83) for a
      random vector, `+` (78) to brighten and `-` (74) to dim. */
  lemma KeypadCodes()
    ensures forall key :: key in KeyActions <==> 71 <= key <= 83
    ensures KeyActions[83] == Shuffle && KeyActions[78] == Brighten && KeyActions[74] == Dim
  {
  }

  /** Every digit 0..9 has exactly one key, and no key is bound to a larger
      digit. */
  lemma DigitKeys(d: nat)
    ensures d <= 9 <==> exists key :: key in KeyActions && KeyActions[key] == Digit(d)
    ensures forall k1, k2 :: k1 in KeyActions && k2 in KeyActions && KeyActions[k1] == KeyActions[k2] ==> k1 == k2
  {
    var keys := [82, 79, 80, 81, 75, 76, 77, 71, 72, 73];
    if d <= 9 {
      assert KeyActions[keys[d]] == Digit(d);
    }
  }

  /** The `+` / `-` steps: up by 0.1 capped at 1.0, down by 0.1 floored at
      0.1; other actions leave the brightness alone. */
  function NextBrightness(b: real, a: Option<Action>): (r: real)
    ensures a == Some(Brighten) ==> r <= 1.0 && (b + 0.1 <= 1.0 ==> r == b + 0.1) && (b + 0.1 >= 1.0 ==> r == 1.0)
    ensures a == Some(Dim) ==> 0.1 <= r && (b - 0.1 >= 0.1 ==> r == b - 0.1) && (b - 0.1 <= 0.1 ==> r == 0.1)
    ensures a != Some(Brighten) && a != Some(Dim) ==> r == b
    ensures 0.1 <= b <= 1.0 ==> 0.1 <= r <= 1.0
  {
    if a == Some(Brighten) then (if b + 0.1 < 1.0 then b + 0.1 else 1.0)
    else if a == Some(Dim) then (if b - 0.1 > 0.1 then b - 0.1 else 0.1)
    else b
  }

  /** Repeated `+` / `-` presses never leave [0.1, 1.0]. */
  lemma {:induction false} BrightnessStaysInRange(b: real, actions: seq<Option<Action>>)
    requires 0.1 <= b <= 1.0
    ensures 0.1 <= BrightnessAfter(b, actions) <= 1.0
    decreases |actions|
  {
    if actions != [] {
      BrightnessStaysInRange(NextBrightness(b, actions[0]), actions[1..]);
    }
  }

  function BrightnessAfter(b: real, actions: seq<Option<Action>>): real
    decreases |actions|
  {
    if actions == [] then b else BrightnessAfter(NextBrightness(b, actions[0]), actions[1..])
  }

  // ---------------------------------------------------------------------
  // One iteration of the main loop

  /** The main loop's own variables: `now` (the clock read after the last
      poll), `last_key` (when a key last came in, or the idle timer last
      fired) and `brightness`. */
  datatype LoopState = LoopState(now: real, lastKey: real, brightness: real)

  /** The idle timer fires: no key, and more than 120 s since `last_key`. */
  predicate IdleDue(key: Option<int>, now: real, lastKey: real) {
    key.None? && now - lastKey > 120.0
  }

  /** The fade a key's action starts, as (target, duration): constellation
      `d` (1-based) over 1 s for digit `d` up to the number of
      constellations, all-dark over 1 s for digit 0, the random vector
      `noise` over 1 s for `.`; nothing for larger digits, `+`, `-` or an
      unbound key. */
  function ActionFade(action: Option<Action>, cs: seq<seq<real>>, noise: seq<real>, nchans: nat): (r: Option<(seq<real>, real)>)
    ensures action == Some(Shuffle) ==> r == Some((noise, 1.0))
    ensures action.None? || action == Some(Brighten) || action == Some(Dim) ==> r.None?
    ensures forall d: nat :: action == Some(Digit(d)) ==>
      r == (if 1 <= d <= |cs| then Some((cs[d - 1], 1.0)) else if d == 0 then Some((Zeros(nchans), 1.0)) else None)
  {
    match action
    case None => None
    case Some(Digit(d)) =>
      if 1 <= d <= |cs| then Some((cs[d - 1], 1.0))
      else if d == 0 then Some((Zeros(nchans), 1.0))
      else None
    case Some(Shuffle) => Some((noise, 1.0))
    case Some(Brighten) => None
    case Some(Dim) => None
  }

  /** The new fade one iteration starts, if any: the random constellation
      `ix` over 5 s when the idle timer fires, else the key's action fade. */
  function FadeFor(key: Option<int>, now: real, lastKey: real, cs: seq<seq<real>>, ix: nat, noise: seq<real>, nchans: nat): (r: Option<(seq<real>, real)>)
    requires ix < |cs|
    ensures IdleDue(key, now, lastKey) ==> r == Some((cs[ix], 5.0))
    ensures key.None? && !IdleDue(key, now, lastKey) ==> r.None?
    ensures key.Some? ==> r == ActionFade(ActionOf(key), cs, noise, nchans)
  {
    if key.None? then
      (if now - lastKey > 120.0 then Some((cs[ix], 5.0)) else None)
    else ActionFade(ActionOf(key), cs, noise, nchans)
  }

  /** `frame` has just started a fade toward `tgt` over `time`, at `now`,
      from its current vector. */
  ghost predicate FadeStarted(frame: Fader, tgt: seq<real>, time: real, now: real)
    reads frame, frame.curr
  {
    |tgt| >= frame.nchans &&
    frame.IsBusy() && frame.fadeStart == Some(now) && frame.fadeTime == time && frame.fadeDone == 0.0 &&
    frame.origin == frame.curr[..] && frame.target == tgt[..frame.nchans]
  }

  /** The loop's variables after one iteration that read `now` from the
      clock and polled `key`. */
  function NextState(s: LoopState, key: Option<int>, now: real): (r: LoopState)
    ensures r.now == now
    ensures r.lastKey == (if key.Some? || IdleDue(key, now, s.lastKey) then now else s.lastKey)
    ensures r.brightness == NextBrightness(s.brightness, ActionOf(key))
  {
    LoopState(now, if key.Some? || now - s.lastKey > 120.0 then now else s.lastKey,
      NextBrightness(s.brightness, ActionOf(key)))
  }

  /** The idle timer (no key for more than 120 s): restart the timer and
      fade to the randomly picked constellation `ix` over 5 s. A key
      restarts the timer too. */
  method IdleTimer(frame: Fader, cs: seq<seq<real>>, key: Option<int>, now: real, lastKey0: real, ix: nat)
    returns (lastKey: real)
    requires frame.Valid() && ix < |cs| && |cs[ix]| >= frame.nchans
    modifies frame
    ensures lastKey == (if key.Some? || IdleDue(key, now, lastKey0) then now else lastKey0)
    ensures frame.Valid() && frame.brightness == old(frame.brightness) && frame.curr[..] == old(frame.curr[..])
    ensures IdleDue(key, now, lastKey0) ==> FadeStarted(frame, cs[ix], 5.0, now)
    ensures !IdleDue(key, now, lastKey0) ==>
      frame.fadeStart == old(frame.fadeStart) && frame.fadeDone == old(frame.fadeDone) &&
      frame.target == old(frame.target) && frame.fadeTime == old(frame.fadeTime) &&
      frame.origin == old(frame.origin) && frame.fadeDelta == old(frame.fadeDelta)
  {
    lastKey := lastKey0;
    if key.None? {
      if now - lastKey > 120.0 {
        lastKey := now;
        frame.StartFade(cs[ix], now, 5.0);
      }
    } else {
      lastKey := now;
    }
  }

  /** The key's action: a fade (digit or `.`), or a brightness step that is
      pushed to the chips at once (`+`, `-`). */
  method KeyAction(frame: Fader, cs: seq<seq<real>>, action: Option<Action>, now: real, brightness0: real, noise: seq<real>)
    returns (brightness: real)
    requires frame.Valid() && frame.brightness == brightness0
    requires forall c :: c in cs ==> |c| >= frame.nchans
    requires |noise| == frame.nchans
    modifies frame, frame.bus, frame.Regs()
    ensures brightness == NextBrightness(brightness0, action)
    ensures frame.Valid() && frame.brightness == brightness && frame.curr[..] == old(frame.curr[..])
    ensures ActionFade(action, cs, noise, frame.nchans).Some? ==>
      FadeStarted(frame, ActionFade(action, cs, noise, frame.nchans).value.0, ActionFade(action, cs, noise, frame.nchans).value.1, now)
    ensures ActionFade(action, cs, noise, frame.nchans).None? ==>
      frame.fadeStart == old(frame.fadeStart) && frame.fadeDone == old(frame.fadeDone) &&
      frame.target == old(frame.target) && frame.fadeTime == old(frame.fadeTime) &&
      frame.origin == old(frame.origin) && frame.fadeDelta == old(frame.fadeDelta)
    ensures frame.bus.log == old(frame.bus.log) +
      (if action == Some(Brighten) || action == Some(Dim)
       then FrameWrites(NormalizedToPwm(frame.curr[..], brightness), frame.nchips) else [])
  {
    brightness := brightness0;
    if action.Some? && action.value.Digit? {
      var d := action.value.d;
      if 1 <= d <= |cs| {
        frame.StartFade(cs[d - 1], now, 1.0);
      }
      if d == 0 {
        var tgt := Zeros(frame.nchans);
        frame.StartFade(tgt, now, 1.0);
      }
    }

    if action == Some(Brighten) {
      brightness := if 1.0 < brightness + 0.1 then 1.0 else brightness + 0.1;
      frame.SetBrightness(brightness);
    }
    if action == Some(Dim) {
      brightness := if 0.1 > brightness - 0.1 then 0.1 else brightness - 0.1;
      frame.SetBrightness(brightness);
    }
    if action == Some(Shuffle) {
      frame.StartFade(noise, now, 1.0);
    }
  }

  /** The head of an iteration: a running fade advances to `now` (the
      clock read after the previous poll), and the poll will wait 50 ms
      while a fade runs, 5 s otherwise. */
  method Tick(frame: Fader, now: real) returns (sleep: real)
    requires frame.Valid()
    modifies frame, frame.curr, frame.bus, frame.Regs()
    ensures sleep == if old(frame.IsBusy()) then 0.05 else 5.0
    ensures frame.Valid() && frame.brightness == old(frame.brightness)
    ensures frame.target == old(frame.target) && frame.fadeTime == old(frame.fadeTime)
    ensures old(frame.IsBusy()) ==>
      frame.fadeDone == Elapsed(now, old(frame.fadeStart.value), frame.fadeTime) &&
      (frame.IsBusy() <==> now - old(frame.fadeStart.value) < frame.fadeTime)
    ensures !old(frame.IsBusy()) ==> !frame.IsBusy() && frame.curr[..] == old(frame.curr[..])
    ensures frame.origin == old(frame.origin) && frame.fadeDelta == old(frame.fadeDelta)
    ensures frame.IsBusy() ==> frame.fadeStart == old(frame.fadeStart)
    ensures old(frame.IsBusy()) ==>
      frame.curr[..] == Mac(old(frame.origin), old(frame.fadeDelta), Elapsed(now, old(frame.fadeStart.value), old(frame.fadeTime)))
    ensures frame.bus.log == old(frame.bus.log) +
      (if old(frame.IsBusy()) then FrameWrites(NormalizedToPwm(frame.curr[..], frame.brightness), frame.nchips) else [])
  {
    if frame.IsBusy() {
      frame.FadeUpdate(now);
      sleep := 0.05;
    } else {
      sleep := 5.0;
    }
  }

  /** One pass of `while True:` in `main`. `input` is what the keypad
      delivers during the poll, `clock` the following `time.time()`,
      `ix` the `random.randint` pick and `noise` the `random.uniform`
      vector. The constellations are wide enough for the fader (see
      `CatalogFitsFader`), and there is at least one, since `main` fades
      to the first before entering the loop. */
  method LoopStep(frame: Fader, kb: Keyboard, cs: seq<seq<real>>, s: LoopState,
                  input: PollInput, clock: real, ix: nat, noise: seq<real>)
    returns (next: LoopState, key: Option<int>, sleep: real)
    requires frame.Valid() && frame.brightness == s.brightness
    requires ix < |cs| && forall c :: c in cs ==> |c| >= frame.nchans
    requires |noise| == frame.nchans
    modifies frame, frame.curr, frame.bus, frame.Regs(), kb
    ensures sleep == if old(frame.IsBusy()) then 0.05 else 5.0
    ensures key == KeyEdge(kb.present, old(kb.lastActive), input)
    ensures kb.lastActive == NextLast(kb.present, old(kb.lastActive), input)
    ensures next == NextState(s, key, clock)
    ensures frame.Valid() && frame.brightness == next.brightness
    ensures FadeFor(key, clock, s.lastKey, cs, ix, noise, frame.nchans).Some? ==>
      FadeStarted(frame, FadeFor(key, clock, s.lastKey, cs, ix, noise, frame.nchans).value.0,
                  FadeFor(key, clock, s.lastKey, cs, ix, noise, frame.nchans).value.1, clock)
    ensures FadeFor(key, clock, s.lastKey, cs, ix, noise, frame.nchans).None? ==>
      frame.target == old(frame.target) && frame.fadeTime == old(frame.fadeTime) &&
      frame.origin == old(frame.origin) && frame.fadeDelta == old(frame.fadeDelta) &&
      (frame.IsBusy() ==> frame.fadeStart == old(frame.fadeStart)) &&
      (old(frame.IsBusy()) ==> frame.fadeDone == Elapsed(s.now, old(frame.fadeStart.value), frame.fadeTime) &&
                               (frame.IsBusy() <==> s.now - old(frame.fadeStart.value) < frame.fadeTime)) &&
      (!old(frame.IsBusy()) ==> !frame.IsBusy())
    ensures old(frame.IsBusy()) ==>
      frame.curr[..] == Mac(old(frame.origin), old(frame.fadeDelta), Elapsed(s.now, old(frame.fadeStart.value), old(frame.fadeTime)))
    ensures !old(frame.IsBusy()) ==> frame.curr[..] == old(frame.curr[..])
    ensures frame.bus.log == old(frame.bus.log)
      + (if old(frame.IsBusy()) then FrameWrites(NormalizedToPwm(frame.curr[..], s.brightness), frame.nchips) else [])
      + (if ActionOf(key) == Some(Brighten) || ActionOf(key) == Some(Dim)
         then FrameWrites(NormalizedToPwm(frame.curr[..], next.brightness), frame.nchips) else [])
  {
    sleep := Tick(frame, s.now);
    key := kb.Poll(input);
    var now := clock;
    var lastKey := IdleTimer(frame, cs, key, now, s.lastKey, ix);
    var action := ActionOf(key);
    assert key.None? ==> action.None?;
    var brightness := KeyAction(frame, cs, action, now, s.brightness, noise);
    next := LoopState(now, lastKey, brightness);
  }
}

/** The channel count `main` gives the fader, `max(mapping.values()) + 1`,
    set against the fixed width `NUM_CHANS` of the constellation vectors. */
module Sizing {
  import opened Wrappers
  import opened Vectors
  import opened Catalog

  lemma HasMember(s: set<int>)
    requires s != {}
    ensures exists x :: x in s
  {
    if forall x :: x !in s {
      assert false;
    }
  }

  /** A star with the highest channel among `stars`. */
  ghost function TopStar(mapping: map<int, int>, stars: set<int>): (top: int)
    requires stars != {} && stars <= mapping.Keys
    ensures top in stars && forall star :: star in stars ==> mapping[star] <= mapping[top]
    decreases stars
  {
    HasMember(stars);
    var x :| x in stars;
    if stars == {x} then x
    else
      var t := TopStar(mapping, stars - {x});
      assert forall star :: star in stars ==> star == x || star in stars - {x};
      if mapping[x] > mapping[t] then x else t
  }

  /** `max(mapping.values()) + 1`: one channel past the highest mapped one
      (Python raises ValueError on an empty mapping). */
  ghost function ChannelCount(mapping: map<int, int>): (r: int)
    requires mapping != map[]
    ensures forall star :: star in mapping ==> mapping[star] < r
    ensures exists star :: star in mapping && mapping[star] == r - 1
  {
    HasMember(mapping.Keys);
    var top := TopStar(mapping, mapping.Keys);
    mapping[top] + 1
  }

  /** As written, the constellation vectors are `NUM_CHANS` = 48 wide
      whatever the mapping says. With a star on channel 63 the fader gets
      64 channels, while a constellation that does not list that star still
      reads back 48 wide; the fade toward it has a 48-entry step vector, so
      `vector_mac` in the first `fade_update` indexes past its end. */
  lemma FixedWidthTooNarrow()
    ensures var mapping := map[1 := 0, 7 := 63];
      var cs := GroupsFrom([ConstHeader, ConstStar(1)], mapping, NumChans);
      1 in mapping && ChannelCount(mapping) == 64 &&
      cs == Ok([Zeros(48)[0 := 1.0]]) &&
      |VectorDiff(cs.value[0], Zeros(64), 1.0)| == 48
  {
    var mapping := map[1 := 0, 7 := 63];
    assert mapping.Keys == {1, 7};
    var ks := [ConstHeader, ConstStar(1)];
    assert ks[..1] == [ConstHeader];
    assert [ConstHeader][..0] == [];
    assert ScanFrom([ConstHeader], mapping, NumChans) == Ok(Scan([], Some(Zeros(48))));
    assert ScanFrom(ks, mapping, NumChans) == Ok(Scan([], Some(Zeros(48)[0 := 1.0])));
    assert |Zeros(48)[0 := 1.0]| == 48;
    assert Groups(Scan([], Some(Zeros(48)[0 := 1.0]))) == [Zeros(48)[0 := 1.0]];
    assert ChannelCount(mapping) == 64;
  }

  /** With the vectors as wide as the fader (`ChannelCount`), and channels
      that are not negative, a mapped channel always fits: the read fails
      only on a non-integer line, an unknown star or a star before the
      first header, and every vector it returns has exactly the fader's
      width. */
  lemma CatalogFitsFader(ks: seq<ConstLine>, mapping: map<int, int>)
    requires mapping != map[] && forall star :: star in mapping ==> mapping[star] >= 0
    ensures ChannelCount(mapping) > 0
    ensures GroupsFrom(ks, mapping, ChannelCount(mapping)).Ok? <==>
      forall i :: 0 <= i < |ks| ==>
        (!ks[i].ConstBad? && (ks[i].ConstStar? ==> ks[i].star in mapping && Headers(ks[..i]) > 0))
    ensures GroupsFrom(ks, mapping, ChannelCount(mapping)).Ok? ==>
      forall c :: c in GroupsFrom(ks, mapping, ChannelCount(mapping)).value ==> |c| == ChannelCount(mapping)
  {
    var n := ChannelCount(mapping);
    ScanOkIff(ks, mapping, n);
    forall i | 0 <= i < |ks|
      ensures Accepted(ks, i, mapping, n) <==>
        (!ks[i].ConstBad? && (ks[i].ConstStar? ==> ks[i].star in mapping && Headers(ks[..i]) > 0))
    {
    }
    if GroupsFrom(ks, mapping, n).Ok? {
      var vs := GroupsFrom(ks, mapping, n).value;
      forall c | c in vs
        ensures |c| == n
      {
        var j :| 0 <= j < |vs| && vs[j] == c;
        GroupsMeaning(ks, mapping, n, j, 0);
      }
    }
  }
}
