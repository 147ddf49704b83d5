# star_field: the LED fade engine, as a verified Dafny model

star_field drives a ceiling star map. A few dozen LEDs sit behind
PCA9685 16-channel PWM chips. A daemon reads two text files. The mapping
file says which PWM channel lights which star. The constellation file
lists the stars of each constellation under an `@` header. A numeric
keypad picks a constellation, and the daemon fades the LEDs toward it.

This project models the part of the daemon that decides what reaches the
PWM registers:

- `wrappers.dfy`: `Option` and `Result`. `Err` stands for the Python
  exception a parser raises.
- `pytext.dfy`: the pieces of Python's `str.strip`, `str.split` and
  `int()` that the parsers use.
- `catalog.dfy` (module `Catalog`): `read_star_mapping` and
  `read_constellations`.
  - Each is a method with the source's loop, run over an already-read
    sequence of lines.
  - Each is proved equal to a specification function. The function
    classifies every line, then folds over the classes.
  - Lemmas then say what that fold returns: when it fails, which star a
    later line overrides, one vector per header, and which channels are
    lit.
- `vectors.dfy` (module `Vectors`): `vector_mac` (an in-place method on an
  array), `vector_diff` and the cubic PWM curve `normalized_to_pwm`.
- `pca9685.dfy` (module `Pca9685`):
  - `LEDnBASE`;
  - the 64-byte ON/OFF register block of `PCA9685.update`;
  - `init_chip` and `regs_normalized`.
  The I2C bus is a `Bus` object that keeps a log of the writes it received.
- `fader.dfy` (module `Fading`):
  - the `LED_Fader` class. Its fields are updated in place by
    `start_fade`, `fade_update`, `set_brightness` and `chip_update`.
  - Ghost fields record the vector a fade started from and the vector it
    aims at.
  - The class invariant is the fader's central promise: between calls,
    `curr == origin + fade_delta * fade_done` and `fade_done <= fade_time`,
    and a fader whose fade has ended sits exactly on its target. `fade_done` is not
    negative as long as the clock does not run backwards. The invariant
    does not require that; it is a conditional postcondition of
    `FadeUpdate`.
  - Module `FadeExample` walks through one concrete fade of the class.
- `daemon.dfy` has two modules.
  - Module `Daemon` covers three things:
    - the key-repeat suppression of `Evdev_Keyboard.poll`;
    - the `key_actions` table;
    - one iteration of the `main` loop. Each iteration advances a
      running fade, polls the keypad and handles the two-minute idle
      timer. It then dispatches the key to a constellation, all-off,
      random, brighter or dimmer.
  - Module `Sizing` covers how `main` sizes the fader from the mapping,
    and the mismatch described under Findings.

The source's arithmetic is done in IEEE doubles. The model uses exact
`real`s. `int(0.5 + x)` for the non-negative `x` of the PWM curve is
`Floor(x + 0.5)`. `int()` on a possibly negative value truncates toward
zero, and the model writes that out.

## Model

| member | source | states |
|---|---|---|
| PyText.Strip | starfield_daemon.py:38 | the stripped line is a contiguous slice of the input that neither starts nor ends with whitespace, and everything cut off on either side is whitespace |
| PyText.StripExact | starfield_daemon.py:38 | whitespace around a token whose ends are not whitespace is exactly what `strip()` removes |
| PyText.StripAllSpace | starfield_daemon.py:38 | a whitespace-only line strips to the empty string |
| PyText.StripFirst | starfield_daemon.py:38 | after leading whitespace, the first other character begins the stripped text |
| PyText.Fields | starfield_daemon.py:41 | `split()` yields non-empty, whitespace-free fields |
| PyText.FieldsOne | starfield_daemon.py:41 | a single whitespace-free word splits into itself |
| PyText.FieldsSplit | starfield_daemon.py:41 | `split()` cuts at each whitespace character and keeps the fields on both sides, in order |
| PyText.ParseInt | starfield_daemon.py:59 | a token is accepted iff it is one or more decimal digits, optionally after a single `+` or `-`; anything else (empty, a lone sign, whitespace, other characters) is the ValueError branch; a negative result needs a leading `-` |
| PyText.ParseIntDigits | starfield_daemon.py:59 | `int()` of a bare digit string is its decimal value, leading zeros included |
| PyText.ParseIntSigned | starfield_daemon.py:59 | `int()` of a digit string after `+` or `-` is its decimal value with that sign |
| PyText.IntText | starfield_daemon.py:59 | the decimal text of an integer is a non-empty token free of whitespace, starting with `-` or a digit |
| PyText.ParseIntDecimal | starfield_daemon.py:42 | `int()` reads back every integer's decimal text, signed or not |
| Catalog.ReadStarMapping | starfield_daemon.py:34-43 | the loop returns exactly `MappingOf(lines)`: skip blank and `#` lines, set `ret[star] = ch` for each two-field integer line, raise ValueError on any other line |
| Catalog.MapSkipLines | starfield_daemon.py:38-40 | whitespace-only lines and lines starting with `#` after any whitespace are skipped |
| Catalog.MapPairLine | starfield_daemon.py:38-42 | a line holding the integers `ch` and `star` (any surrounding whitespace) is the pair `(ch, star)` |
| Catalog.MappingOkIff | starfield_daemon.py:37-42 | the mapping parses if and only if no line is malformed |
| Catalog.MappingLastWins | starfield_daemon.py:42 | a star is in the dictionary iff some line defines it; its channel is the one from the last line defining it (no duplicate check) |
| Catalog.ConstSkipLines | starfield_daemon.py:51-53 | whitespace-only lines and lines starting with `#` after any whitespace are skipped |
| Catalog.HeaderLine | starfield_daemon.py:54 | a line starting with `@` after any whitespace is a header |
| Catalog.StarLine | starfield_daemon.py:59 | a line holding an integer (any surrounding whitespace) is that star |
| Catalog.ReadConstellations | starfield_daemon.py:46-64 | the loop returns exactly `ConstellationsOf(lines, mapping, n)`, including the group still open at the end of the file |
| Catalog.ScanOkIff | starfield_daemon.py:52-61 | parsing succeeds iff every line is accepted: no non-integer line, every star is mapped and comes after a header, and every channel is in range |
| Catalog.FirstRejection | starfield_daemon.py:59-61 | a failed read reports the first line that is not accepted, with the source's order of failures: ValueError for a non-integer, then KeyError for an unmapped star, then TypeError before any header, then IndexError for a channel outside the vector |
| Catalog.ScanShape | starfield_daemon.py:54-63 | there is an open group iff a header was read; every vector has width n; for n > 0 there is exactly one vector per header, so empty groups count too |
| Catalog.ScanMembers | starfield_daemon.py:55-61 | entry c of vector j is 1.0 exactly when a star listed under header j maps to channel c, and 0.0 otherwise |
| Catalog.GroupsMeaning | starfield_daemon.py:46-64 | the result of a successful parse has one vector per `@` header, in file order, each of width n and lit exactly at its stars' channels |
| Catalog.TwoGroupsExample | starfield_daemon.py:54-63 | two groups of stars give two vectors, the last one emitted at the end of the file |
| Vectors.VectorMac | starfield_daemon.py:68-70 | in place, `acc[k]` becomes `old acc[k] + v[k] * m` for every k, and the length is unchanged |
| Vectors.MacTwice | starfield_daemon.py:68-70 | two accumulations with the same vector add their multipliers, so increments of a fade sum up |
| Vectors.MacZero | starfield_daemon.py:68-70 | accumulating with multiplier 0 changes nothing |
| Vectors.VectorDiff | starfield_daemon.py:74-75 | the difference is as long as the shorter operand, and for a non-zero factor `b[k] + r[k] / fact == a[k]` gives each entry of `a` back |
| Vectors.DiffTruncates | starfield_daemon.py:74-75 | `zip` stops at the shorter vector: a longer first operand's tail is ignored |
| Vectors.DiffLandsOnTarget | starfield_daemon.py:74-75 | starting from `curr`, accumulating `(tgt - curr) / T` for T seconds lands exactly on `tgt` (truncated to `curr`'s length) |
| Vectors.PwmLevel | starfield_daemon.py:80 | the PWM level of one value lies in 0..4095; it is 0 for values ≤ 0 and 4095 for values ≥ 1 |
| Vectors.PwmLevelMonotone | starfield_daemon.py:80 | the PWM curve is non-decreasing |
| Vectors.NormalizedToPwm | starfield_daemon.py:79-80 | same length as the input; every entry is the PWM level of `v * bright`, within 0..4095 |
| Vectors.PwmSaturates | starfield_daemon.py:79-80 | the output is 0 where `v * bright ≤ 0` and 4095 where `v * bright ≥ 1` |
| Vectors.PwmDark | starfield_daemon.py:79-80 | brightness 0 or an all-zero vector gives all-zero PWM values |
| Vectors.PwmMonotone | starfield_daemon.py:79-80 | for `bright ≥ 0`, a pointwise larger vector gives pointwise larger PWM values |
| Pca9685.Bus.WriteByteData | pca9685.py:40-42 | a byte write appends one entry to the bus log |
| Pca9685.Bus.WriteBlockData | pca9685.py:51 | a block write appends one entry to the bus log |
| Pca9685.LedBase | pca9685.py:29 | each channel's base register is 4-aligned from 0x06, and for channels 0..15 the whole block lies in 0x06..0x45 |
| Pca9685.LedBlocksTile | pca9685.py:29 | the 16 channel blocks start at 0x06 and end at 0x46, before ALL_LED_ON_L; every register in between belongs to exactly one channel and offset |
| Pca9685.LedBlocksDisjoint | pca9685.py:29 | blocks of different channels do not overlap |
| Pca9685.EncodeBlockAt | pca9685.py:48-51 | byte `4i + j` of the block is byte j of channel i's ON_L/ON_H/OFF_L/OFF_H record (row-major by channel) |
| Pca9685.RecordRoundTrip | pca9685.py:49-50 | for a 12-bit duty value, `OFF_L + 256 * OFF_H` gives it back and `OFF_H ≤ 15` |
| Pca9685.EncodeBlockRoundTrip | pca9685.py:48-51 | the block is 4 bytes per channel; the ON bytes are 0; the OFF bytes decode back to the data |
| Pca9685.RegsNormalized | pca9685.py:54-57 | four bytes `[0, 0, lo, hi]` holding a 12-bit value; it is 0 for v ≤ 0 and 0xFFF for v ≥ 1 |
| Pca9685.NormalizedLevel | pca9685.py:55-56 | the clamped level is a 12-bit duty value; it is 0 for v ≤ 0 and 0xFFF for v ≥ 1 |
| Pca9685.RegsNormalizedIsRecord | pca9685.py:54-57 | `regs_normalized` is exactly the channel record `update` would write for that level |
| Pca9685.Chip.constructor | pca9685.py:32-36 | creating a chip issues `init_chip`'s writes and allocates a fresh 16 x 4 register buffer whose ON columns are zero |
| Pca9685.Chip.InitChip | pca9685.py:38-42 | exactly two byte writes to the chip: MODE1 ← 0x20, then MODE2 ← 0x10 |
| Pca9685.Chip.Update | pca9685.py:44-51 | one 64-byte block to the chip's address at `LEDnBASE(0)`, whose bytes depend only on the data, not on earlier updates; a single value is broadcast to all 16 rows, as numpy does |
| Pca9685.Broadcast | pca9685.py:49-50 | the 16 rows numpy assigns: the 16 values themselves, or one value repeated |
| Pca9685.BroadcastSingle | pca9685.py:44-51 | updating with a single duty value sets all 16 outputs of the chip to it |
| Fading.Elapsed | starfield_daemon.py:108-112 | the elapsed time is clamped to the fade time |
| Fading.FrameAddresses | starfield_daemon.py:118-121 | chip k (address 0x40 + k), in chip order, receives the encoding of exactly `pwm[16k : 16k + 16]` |
| Fading.FrameRoundTrip | starfield_daemon.py:118-121 | decoding the blocks of one `chip_update` gives back the first 16 · nchips PWM values |
| Fading.FadeAdvance | starfield_daemon.py:107-116 | one `fade_update` step keeps `curr == origin + delta · done` with `done ≤ time`, and at the end lands exactly on the target |
| Fading.Fader.BusyWhileTimeLeft | starfield_daemon.py:123-124 | `is_busy()` (a fade start is recorded) holds exactly while a started fade has time left (`fade_done < fade_time`) |
| Fading.Fader.IdleAtTarget | starfield_daemon.py:107-116 | once a started fade is no longer busy, `curr` is exactly its target |
| Fading.Fader.constructor | starfield_daemon.py:84-95 | one chip per 16 channels at addresses 0x40 + k, initialised in order; an all-zero vector; not busy |
| Fading.Fader.StartFade | starfield_daemon.py:97-101 | `fade_delta = (tgt - curr) / T`, `fade_done = 0`, `fade_start = now`; `curr` and `brightness` are unchanged; the fader is busy and any earlier fade is replaced |
| Fading.Fader.ChipUpdate | starfield_daemon.py:118-121 | the writes are exactly the per-chip slices of `normalized_to_pwm(curr, brightness)`; `curr` is unchanged |
| Fading.Fader.SetBrightness | starfield_daemon.py:103-105 | only `brightness` changes, and the current vector is pushed at the new brightness |
| Fading.Fader.FadeUpdate | starfield_daemon.py:107-116 | `fade_done` becomes the clamped elapsed time; the fader is busy iff the fade time has not passed; `curr == origin + delta · fade_done`; a finished fade sits exactly on its target; the chips receive the new vector |
| FadeExample.TwoTicks | starfield_daemon.py:97-116 | a 2 s fade from dark to channels 1 and 3 is halfway and busy after 1 s, and exactly on target and idle after 2 s |
| Daemon.KeyEdge | starfield_daemon.py:152-160 | a key is reported iff a keyboard is open, the device was readable, some key is held and the first held key differs from the last one reported |
| Daemon.NextLast | starfield_daemon.py:152-160 | `last_active` becomes the first held key, None once all keys are released, and is unchanged on a timeout or without a keyboard |
| Daemon.Keyboard.constructor | starfield_daemon.py:128-130 | no key has been reported yet |
| Daemon.Keyboard.Poll | starfield_daemon.py:141-160 | returns `KeyEdge` and updates `last_active` to `NextLast`, in the source's branch order |
| Daemon.HeldKeyReportedOnce | starfield_daemon.py:154-160 | while one key is the first held key, polls report it at most once: exactly at the first readable poll, unless it was already the last one reported |
| Daemon.ReleaseRearms | starfield_daemon.py:154-156 | releasing every key re-arms the same key: press, release, press reports it twice |
| Daemon.KeypadCodes | starfield_daemon.py:14-31 | `key_actions` binds exactly the keypad codes 71..83: `.` (83) to random, `+` (78) to brighten, `-` (74) to dim |
| Daemon.ActionOf | starfield_daemon.py:206 | a key has an action iff it is in `key_actions`, and then it is the action bound to it |
| Daemon.DigitKeys | starfield_daemon.py:14-24 | each digit 0..9 has a keypad key, no other digit does, and no two keys share an action |
| Daemon.NextBrightness | starfield_daemon.py:216-221 | brighten gives `b + 0.1` when that is at most 1.0 and 1.0 otherwise; dim gives `b - 0.1` when that is at least 0.1 and 0.1 otherwise; anything else leaves brightness alone; the range [0.1, 1.0] is kept |
| Daemon.BrightnessStaysInRange | starfield_daemon.py:216-221 | any sequence of keys keeps brightness within [0.1, 1.0] |
| Daemon.ActionFade | starfield_daemon.py:206-224 | digit d in 1..len fades to constellation d-1 and digit 0 to all-off, both in 1.0 s; larger digits do nothing; random fades to the noise vector; bright, dim and no key start no fade |
| Daemon.FadeFor | starfield_daemon.py:197-224 | with no key for more than 120 s, a 5.0 s fade to the chosen constellation; otherwise the key's fade |
| Daemon.NextState | starfield_daemon.py:195-221 | the new clock; the idle timer resets on a key or when the idle fade fires; the new brightness |
| Daemon.IdleTimer | starfield_daemon.py:197-205 | the idle fade starts exactly when no key came for more than 120 s; otherwise the fader is untouched |
| Daemon.KeyAction | starfield_daemon.py:206-224 | the brightness step and the fade the action selects; bright and dim push the current vector; other fields are unchanged |
| Daemon.Tick | starfield_daemon.py:188-192 | a busy fader is advanced to the previous clock reading with a 0.05 s poll: its vector becomes `origin + delta · elapsed`, with origin, delta and (while busy) start kept; an idle one is left alone with a 5.0 s poll |
| Daemon.LoopStep | starfield_daemon.py:187-224 | one iteration is the composition of tick, poll, idle timer and dispatch: the vector is the ticked one in every branch, the new state is `NextState`, the fade `FadeFor` starts from that vector (or the running fade is only ticked, with its origin, delta and start kept), and the writes of both |
| Sizing.TopStar | starfield_daemon.py:172 | a star whose channel is the largest in the mapping |
| Sizing.ChannelCount | starfield_daemon.py:172 | the fader width `max(mapping.values()) + 1` exceeds every mapped channel and is reached by one |
| Sizing.FixedWidthTooNarrow | starfield_daemon.py:168-172 | with a star on channel 63, the fader has 64 channels but the catalog vectors have 48, so the fade delta is 48 long |
| Sizing.CatalogFitsFader | starfield_daemon.py:46-64 | for a non-empty mapping whose channels are all non-negative, parsing at the fader's own width succeeds iff every line is accepted, and every vector is as wide as the fader |

## Left out

- File I/O: the parsers take the file's lines as a sequence. `read_constellations` ignores its `fn` argument and always opens `constellations.txt`. Here the caller passes the lines.
- The keypad device (`evdev.list_devices`, `InputDevice`, `grab`, `read`, `select`) is one input per poll: a timeout, or the held keys after draining the queue. `time.sleep`, `time.time` and `random.randint`/`random.uniform` become parameters: the clock, the chosen constellation index and the noise vector. Their distribution is not modelled.
- The rest of `main` (starfield_daemon.py:163-186) is not modelled: printing, opening the bus, the first `chip_update` and the first fade. Its sizing of the fader is in `Sizing`.
- `pca9685.main` (the sine-wave demo) and `star_test_interactive.py` (an interactive console editor) are not part of this model.
- IEEE floating point: the model uses exact reals, so `DiffLandsOnTarget` and `FadeUpdate` land exactly on the target, where doubles may miss it by rounding.
- Pca9685.Chip.Update: the source writes to an undefined global `bus` (pca9685.py:51). That would raise NameError unless the caller defines one. The model writes to the chip's own bus.
- Pca9685.Chip.Update: requires 16 values, or a single one, which numpy broadcasts. numpy refuses any other count. Values must lie between -2^31 and 2^31, since `dtype='i'` would wrap larger ones. The daemon only passes 0..4095.
- Fading.Fader.constructor: requires the channel count to be a multiple of 16. For a count of 16k + 2 to 16k + 15 the last chip's slice is short, and `update`'s numpy assignment fails. A count of 16k + 1 is excluded as well, although the source handles it once `bus` is the chip's own bus: the last chip gets a one-value slice, which numpy broadcasts. All 16 outputs of that chip would then show channel 16k. The model does not cover that fader shape; `Pca9685.BroadcastSingle` shows the chip-level effect.
- Fading.Fader.StartFade: requires `fade_time > 0`, because the source divides by it, and requires a target at least as long as the fader. With a shorter target `zip` truncates `fade_delta`, and the next `fade_update` raises IndexError. `Sizing.FixedWidthTooNarrow` shows that case.
- Vectors.VectorMac: requires `v` at least as long as `acc`. The source would update part of `acc` and then raise IndexError.
- Fading.Fader.FadeUpdate: requires a busy fader. With `fade_start` None the source raises TypeError; the daemon only calls it when busy.
- PyText.ParseInt: Python's `int()` also accepts underscores between digits and non-ASCII digits. Those forms are not modelled, so such a line is a ValueError here.
- Checks the source does not perform are not added: a duplicate-star check, a channel-range check in the mapping parser, and padding of a short last chip.

## Findings

| source | as written | input that shows it | evidently intended | confidence | as-written member | corrected member |
|---|---|---|---|---|---|---|
| starfield_daemon.py:57 | constellation vectors always have NUM_CHANS = 48 entries (line 11), but the fader built at line 172 has `max(mapping.values()) + 1` channels | a mapping with a star on channel 63 gives a 64-channel fader. A selected constellation yields a 48-entry `fade_delta`, and `fade_update`'s `vector_mac` then indexes past its end (IndexError) | build the catalog vectors at the fader's width | high, not executed | Sizing.FixedWidthTooNarrow | Sizing.CatalogFitsFader |
