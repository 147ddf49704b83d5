/** The PCA9685 16-channel PWM driver as the daemon drives it: two mode
    register writes at start-up, then one 64-byte block per frame holding
    the ON_L, ON_H, OFF_L, OFF_H registers of every channel. The SMBus is
    modelled as a log of the writes issued on it. */
module Pca9685 {

  type Byte = x: int | 0 <= x < 256

  /** One transfer on the bus. */
  datatype Write =
    | ByteData(addr: int, reg: int, value: Byte)          // write_byte_data
    | BlockData(addr: int, reg: int, bytes: seq<Byte>)    // write_i2c_block_data

  /** An SMBus handle: every write is appended to `log`, in issue order. */
  class Bus {
    var log: seq<Write>

    constructor ()
      ensures log == []
    {
      log := [];
    }

    method WriteByteData(addr: int, reg: int, value: Byte)
      modifies this
      ensures log == old(log) + [ByteData(addr, reg, value)]
    {
      log := log + [ByteData(addr, reg, value)];
    }

    method WriteBlockData(addr: int, reg: int, bytes: seq<Byte>)
      modifies this
      ensures log == old(log) + [BlockData(addr, reg, bytes)]
    {
      log := log + [BlockData(addr, reg, bytes)];
    }
  }

  const Mode1: int := 0x00
  const Mode2: int := 0x01
  /** MODE1: auto-increment on, oscillator running, no sub-addresses. */
  const Mode1Value: Byte := 0x20
  /** MODE2: outputs inverted, totem-pole drivers. */
  const Mode2Value: Byte := 0x10
  /** ALL_LED_ON_L, the first register after the per-channel blocks. */
  const AllLedOnL: int := 0xFA

  /** The writes `init_chip` issues to the chip at `addr`, in order. */
  function InitWrites(addr: int): seq<Write> {
    [ByteData(addr, Mode1, Mode1Value), ByteData(addr, Mode2, Mode2Value)]
  }

  /** `LEDnBASE(n)`: the LEDn_ON_L register, first of channel n's four. */
  function LedBase(n: int): (r: int)
    ensures (r - 0x06) % 4 == 0
    ensures 0 <= n < 16 ==> 0x06 <= r && r + 3 < 0x46
  {
    0x06 + 4 * n
  }

  /** The sixteen channel blocks are four registers apart, do not overlap,
      start at 0x06 and together cover 0x06..0x45 without reaching the
      ALL_LED registers: every register there belongs to exactly one
      channel at exactly one offset. */
  lemma LedBlocksTile(reg: int)
    requires LedBase(0) <= reg < LedBase(16)
    ensures LedBase(0) == 0x06 && LedBase(16) == 0x46 <= AllLedOnL
    ensures var n, j := (reg - 0x06) / 4, (reg - 0x06) % 4;
      0 <= n < 16 && 0 <= j < 4 && LedBase(n) + j == reg
  {
  }

  lemma LedBlocksDisjoint(n: int, j: int, m: int, k: int)
    requires 0 <= j < 4 && 0 <= k < 4
    requires LedBase(n) + j == LedBase(m) + k
    ensures n == m && j == k
  {
  }

  /** `d & 0xff` on a two's-complement integer. */
  function Low(d: int): Byte {
    d % 256
  }

  /** `(d >> 8) & 0xff` on a two's-complement integer (an arithmetic shift
      is a floor division). */
  function High(d: int): Byte {
    (d / 256) % 256
  }

  /** Channel record: ON_L, ON_H, OFF_L, OFF_H. The ON time is always 0 and
      the OFF time is the duty value. */
  function ChannelRecord(d: int): seq<Byte> {
    [0, 0, Low(d), High(d)]
  }

  /** The 64 bytes `update(data)` sends: `onoff_regs.tobytes()`, row-major,
      four bytes per channel in channel order. */
  function EncodeBlock(data: seq<int>): seq<Byte> {
    seq(4 * |data|, k requires 0 <= k < 4 * |data| => ChannelRecord(data[k / 4])[k % 4])
  }

  /** The duty values a chip reads back out of a register block. */
  function DecodeBlock(bytes: seq<Byte>): seq<int> {
    seq(|bytes| / 4, i requires 0 <= i < |bytes| / 4 => bytes[4 * i + 2] as int + 256 * (bytes[4 * i + 3] as int))
  }

  predicate IsDuty(d: int) { 0 <= d <= 0xFFF }

  /** Byte `4 * i + j` of a block is byte `j` of channel `i`'s record. */
  lemma EncodeBlockAt(data: seq<int>, i: int, j: int)
    requires 0 <= i < |data| && 0 <= j < 4
    ensures 4 * i + j < |EncodeBlock(data)|
    ensures EncodeBlock(data)[4 * i + j] == ChannelRecord(data[i])[j]
  {
    assert (4 * i + j) / 4 == i && (4 * i + j) % 4 == j;
  }

  /** A 12-bit duty value is OFF_L + 256 * OFF_H, with OFF_H at most 15. */
  lemma RecordRoundTrip(d: int)
    requires IsDuty(d)
    ensures Low(d) + 256 * High(d) == d && High(d) <= 15
  {
    assert d / 256 < 16;
  }

  /** For 12-bit duty values the register encoding round-trips; the ON
      registers are zero and OFF_H holds only the top four bits. */
  lemma EncodeBlockRoundTrip(data: seq<int>)
    requires forall i :: 0 <= i < |data| ==> IsDuty(data[i])
    ensures |EncodeBlock(data)| == 4 * |data|
    ensures DecodeBlock(EncodeBlock(data)) == data
    ensures forall i :: 0 <= i < |data| ==>
      EncodeBlock(data)[4 * i] == 0 && EncodeBlock(data)[4 * i + 1] == 0 && EncodeBlock(data)[4 * i + 3] <= 15
  {
    var b := EncodeBlock(data);
    forall i | 0 <= i < |data|
      ensures b[4 * i] == 0 && b[4 * i + 1] == 0 && b[4 * i + 3] <= 15
      ensures DecodeBlock(b)[i] == data[i]
    {
      EncodeBlockAt(data, i, 0);
      EncodeBlockAt(data, i, 1);
      EncodeBlockAt(data, i, 2);
      EncodeBlockAt(data, i, 3);
      RecordRoundTrip(data[i]);
    }
  }

  /** `regs_normalized(v)`: the channel record for brightness `v`, using
      `int(v ** 3 * 4096.0 - 0.5)` clamped to 0..0xfff. `int()` truncates
      toward zero. */
  function RegsNormalized(v: real): (r: seq<int>)
    ensures |r| == 4 && r[0] == 0 && r[1] == 0
    ensures 0 <= r[2] <= 0xFF && 0 <= r[3] <= 0xF && IsDuty(r[2] + 256 * r[3])
    ensures v <= 0.0 ==> r[2] == 0 && r[3] == 0
    ensures v >= 1.0 ==> r[2] + 256 * r[3] == 0xFFF
  {
    var level := NormalizedLevel(v);
    [0x00, 0x00, level % 256, level / 256]
  }

  function Trunc(x: real): int {
    if x >= 0.0 then x.Floor else -((-x).Floor)
  }

  /** The duty value inside `regs_normalized(v)`. */
  function NormalizedLevel(v: real): (r: int)
    ensures IsDuty(r)
    ensures v <= 0.0 ==> r == 0
    ensures v >= 1.0 ==> r == 0xFFF
  {
    var x := v * v * v * 4096.0 - 0.5;
    if v <= 0.0 then
      assert v * v >= 0.0;
      assert v * v * v <= 0.0;
      0
    else
      if v >= 1.0 then assert v * v >= 1.0; assert v * v * v >= 1.0; assert Trunc(x) >= 0xFFF; 0xFFF
      else
      var t := Trunc(x);
      if t > 0xFFF then 0xFFF else if t < 0 then 0 else t
  }

  /** `regs_normalized` lays out its record exactly as `update` lays out a
      channel, so the demo's hand-built blocks and the daemon's agree
      (`r >> 8` needs no mask below 0x1000). */
  lemma RegsNormalizedIsRecord(v: real)
    ensures RegsNormalized(v) == ChannelRecord(NormalizedLevel(v))
  {
    var d := NormalizedLevel(v);
    assert d / 256 < 256;
  }

  /** The 16 rows numpy assigns from `data`: the list itself, or one
      value repeated in every row. */
  function Broadcast(data: seq<int>): (r: seq<int>)
    requires |data| == 16 || |data| == 1
    ensures |r| == 16
    ensures |data| == 16 ==> r == data
    ensures |data| == 1 ==> forall i :: 0 <= i < 16 ==> r[i] == data[0]
  {
    if |data| == 1 then seq(16, _ => data[0]) else data
  }

  /** A single duty value reaches all 16 outputs of the chip. */
  lemma BroadcastSingle(v: int)
    requires IsDuty(v)
    ensures DecodeBlock(EncodeBlock(Broadcast([v]))) == seq(16, _ => v)
  {
    EncodeBlockRoundTrip(Broadcast([v]));
  }

  /** One PCA9685 on a bus. `regs` is `onoff_regs`: a 16 x 4 byte buffer, one
      row per channel, whose ON columns stay zero. */
  class Chip {
    const bus: Bus
    const addr: int
    const regs: array2<Byte>

    ghost predicate Valid()
      reads regs
    {
      regs.Length0 == 16 && regs.Length1 == 4 &&
      forall i :: 0 <= i < 16 ==> regs[i, 0] == 0 && regs[i, 1] == 0
    }

    /** `PCA9685(bus, addr)`: configures the chip, then allocates a zeroed
        register buffer. */
    constructor (bus: Bus, addr: int)
      modifies bus
      ensures Valid() && fresh(regs)
      ensures this.bus == bus && this.addr == addr
      ensures bus.log == old(bus.log) + InitWrites(addr)
    {
      this.bus := bus;
      this.addr := addr;
      regs := new Byte[16, 4]((i, j) => 0);
      new;
      InitChip();
    }

    /** `init_chip`: MODE1 then MODE2, two single-byte writes. */
    method InitChip()
      modifies bus
      ensures bus.log == old(bus.log) + InitWrites(addr)
    {
      bus.WriteByteData(addr, Mode1, Mode1Value);
      bus.WriteByteData(addr, Mode2, Mode2Value);
    }

    /** `onoff_regs.tobytes()`. */
    function ToBytes(): (r: seq<Byte>)
      reads regs
      requires Valid()
      ensures |r| == 64
    {
      seq(64, k requires 0 <= k < 64 reads regs => regs[k / 4, k % 4])
    }

    /** `update(data)`: overwrites the OFF columns with the 16 duty values,
        then sends the whole buffer as one block at LEDnBASE(0). The bytes
        sent depend on `data` alone, never on an earlier update. numpy
        broadcasts a single value to all 16 rows, refuses a list of any
        other length, and refuses values outside 32 bits. */
    method Update(data: seq<int>)
      requires Valid() && (|data| == 16 || |data| == 1)
      requires forall i :: 0 <= i < |data| ==> -0x8000_0000 <= data[i] < 0x8000_0000
      modifies regs, bus
      ensures Valid()
      ensures |data| == 16 ==> bus.log == old(bus.log) + [BlockData(addr, LedBase(0), EncodeBlock(data))]
      ensures |data| == 1 ==> bus.log == old(bus.log) + [BlockData(addr, LedBase(0), EncodeBlock(Broadcast(data)))]
    {
      var rows := Broadcast(data);
      forall i | 0 <= i < 16 {
        regs[i, 2] := Low(rows[i]);
      }
      forall i | 0 <= i < 16 {
        regs[i, 3] := High(rows[i]);
      }
      var bytes := ToBytes();
      forall k | 0 <= k < 64
        ensures bytes[k] == EncodeBlock(rows)[k]
      {
        assert 0 <= k / 4 < 16;
      }
      assert bytes == EncodeBlock(rows);
      bus.WriteBlockData(addr, LedBase(0), bytes);
    }
  }
}
