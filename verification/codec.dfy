/**
 * The instruction codec of the device client: the wire framing of a command
 * (`__ForgeInstruction`) and the two value converters onto the bulb's 0..200
 * scale (`__ConvertBrightness`, `__ConvertTempKelvin`).
 *
 * A packet is
 *   FE EF <length> <instruction> <write switch> <data ...> <padding> [<terminal>]
 * where the padding byte makes the byte sum of the whole packet land on one
 * of the allowed sizes. `Forge` states what the forge produces; the method
 * `ForgeInstruction` computes it the way the source does, with a summing
 * loop and a scan over the allow-list.
 */
module Codec {
  import opened Wrappers
  import opened Constants

  type Byte = x: int | 0 <= x < 256

  const Header: seq<int> := [0xFE, 0xEF]

  /** The Kelvin limits the device object hard-codes for its converter. */
  const DeviceMinKelvin: int := 2700
  const DeviceMaxKelvin: int := 6500

  /** The two ways the forge raises instead of returning bytes. */
  datatype ForgeError =
    | ListHasNoHex(list: seq<int>)     // the fallback logs `packet.hex()` on a Python list
    | ByteOutOfRange(list: seq<int>)   // `bytes(packet)` meets a value outside 0..255

  datatype Forged = Packet(bytes: seq<Byte>) | Raised(error: ForgeError)

  /** 1 when a terminal byte is given (any non-zero, i.e. truthy, value), else 0. */
  function TerminalCount(terminal: int): nat {
    if terminal != 0 then 1 else 0
  }

  /** The length field: data, instruction, write switch, padding and the optional terminal. */
  function DeclaredLength(data: seq<int>, terminal: int): int {
    |data| + 3 + TerminalCount(terminal)
  }

  function Prefix(instruction: int, writeSwitch: int, data: seq<int>, terminal: int): seq<int> {
    Header + [DeclaredLength(data, terminal), instruction, writeSwitch] + data
  }

  /** The running byte sum, added up left to right. */
  function Sum(s: seq<int>): int {
    if s == [] then 0 else Sum(s[..|s| - 1]) + s[|s| - 1]
  }

  /** What the scan compares the sizes against: the terminal plus the prefix's sum. */
  function BaseSum(instruction: int, writeSwitch: int, data: seq<int>, terminal: int): int {
    terminal + Sum(Prefix(instruction, writeSwitch, data, terminal))
  }

  function Padding(size: int, s: int, terminal: int): int {
    size - s + TerminalCount(terminal)
  }

  /** A size is taken when it is at least the base sum and its padding fits in one byte. */
  predicate Fits(size: int, s: int, terminal: int) {
    size >= s && Padding(size, s, terminal) <= 255
  }

  /** The index of the first size, from `from` on, that `Fits`. */
  function FirstFit(sizes: seq<int>, from: nat, s: int, terminal: int): (r: Option<nat>)
    requires from <= |sizes|
    decreases |sizes| - from
    ensures r.Some? ==> from <= r.value < |sizes| && Fits(sizes[r.value], s, terminal)
    ensures r.Some? ==> forall k :: from <= k < r.value ==> !Fits(sizes[k], s, terminal)
    ensures r.None? <==> forall k :: from <= k < |sizes| ==> !Fits(sizes[k], s, terminal)
  {
    if from == |sizes| then None
    else if Fits(sizes[from], s, terminal) then Some(from)
    else FirstFit(sizes, from + 1, s, terminal)
  }

  function Trailer(terminal: int): seq<int> {
    if terminal != 0 then [terminal] else []
  }

  predicate AllBytes(list: seq<int>) {
    forall i :: 0 <= i < |list| ==> 0 <= list[i] < 256
  }

  /** Python's `bytes(list)`: the same values, or a ValueError for one outside 0..255. */
  function ToBytes(list: seq<int>): (r: Forged)
    ensures r.Packet? <==> AllBytes(list)
    ensures r.Packet? ==> r.bytes == list
    ensures r.Raised? ==> r.error == ByteOutOfRange(list)
  {
    if AllBytes(list) then Packet(seq(|list|, i requires 0 <= i < |list| => list[i]))
    else Raised(ByteOutOfRange(list))
  }

  /**
   * The outcome of forging a packet. When no allowed size fits, the source
   * decrements the length field, appends the terminal (0 included) and then
   * raises while logging; the error carries that degraded list.
   */
  function Forge(instruction: int, writeSwitch: int, data: seq<int>, terminal: int): (r: Forged)
    ensures r.Packet? ==> |r.bytes| == 6 + |data| + TerminalCount(terminal)
    ensures r.Raised? && r.error.ListHasNoHex? ==> |r.error.list| == 6 + |data|
  {
    var p := Prefix(instruction, writeSwitch, data, terminal);
    var s := terminal + Sum(p);
    match FirstFit(PacketSizes, 0, s, terminal)
    case Some(k) => ToBytes(p + [Padding(PacketSizes[k], s, terminal)] + Trailer(terminal))
    case None => Raised(ListHasNoHex(p[2 := p[2] - 1] + [terminal]))
  }

  method ForgeInstruction(instruction: int, writeSwitch: int, data: seq<int>, terminal: int) returns (r: Forged)
    ensures r == Forge(instruction, writeSwitch, data, terminal)
  {
    var messageLength := |data| + 1 + 1 + 1 + (if terminal != 0 then 1 else 0);
    var packet := Header + [messageLength, instruction, writeSwitch] + data;
    ghost var p := packet;
    assert p == Prefix(instruction, writeSwitch, data, terminal);
    var packetSize := terminal;
    for i := 0 to |packet|
      invariant packetSize == terminal + Sum(packet[..i])
    {
      assert packet[..i + 1][..i] == packet[..i];
      packetSize := packetSize + packet[i];
    }
    assert packet[..|packet|] == packet;
    ghost var s := packetSize;
    assert s == BaseSum(instruction, writeSwitch, data, terminal);
    var j := 0;
    while j < |PacketSizes|
      invariant 0 <= j <= |PacketSizes|
      invariant packet == p && packetSize == s
      invariant FirstFit(PacketSizes, j, s, terminal) == FirstFit(PacketSizes, 0, s, terminal)
    {
      var size := PacketSizes[j];
      j := j + 1;
      if size >= packetSize {
        var lastByte := size - packetSize + (if terminal != 0 then 1 else 0);
        if lastByte > 255 {
          continue;
        }
        packet := packet + [lastByte];
        if terminal != 0 {
          packet := packet + [terminal];
        }
        assert FirstFit(PacketSizes, j - 1, s, terminal) == Some(j - 1);
        assert packet == p + [Padding(size, s, terminal)] + Trailer(terminal);
        r := ToBytes(packet);
        ForgeTakesFirstFit(instruction, writeSwitch, data, terminal, j - 1);
        return;
      }
    }
    assert FirstFit(PacketSizes, 0, s, terminal).None?;
    packet := packet[2 := packet[2] - 1];
    packet := packet + [terminal];
    r := Raised(ListHasNoHex(packet));
  }

  lemma ForgeTakesFirstFit(instruction: int, writeSwitch: int, data: seq<int>, terminal: int, k: nat)
    requires FirstFit(PacketSizes, 0, BaseSum(instruction, writeSwitch, data, terminal), terminal) == Some(k)
    ensures var s := BaseSum(instruction, writeSwitch, data, terminal);
      Forge(instruction, writeSwitch, data, terminal)
        == ToBytes(Prefix(instruction, writeSwitch, data, terminal) + [Padding(PacketSizes[k], s, terminal)] + Trailer(terminal))
  {
  }

  // ----- Properties of the framing -----

  lemma {:induction false} SumAppend(a: seq<int>, b: seq<int>)
    ensures Sum(a + b) == Sum(a) + Sum(b)
    decreases |b|
  {
    if b == [] {
      assert a + b == a;
    } else {
      var c := b[..|b| - 1];
      assert (a + b)[..|a + b| - 1] == a + c;
      SumAppend(a, c);
    }
  }

  lemma PrefixSum(instruction: int, writeSwitch: int, data: seq<int>, terminal: int)
    ensures Sum(Prefix(instruction, writeSwitch, data, terminal))
         == 0xFE + 0xEF + DeclaredLength(data, terminal) + instruction + writeSwitch + Sum(data)
  {
    var len := DeclaredLength(data, terminal);
    var q := [0xFE, 0xEF, len, instruction, writeSwitch];
    assert Prefix(instruction, writeSwitch, data, terminal) == q + data;
    SumAppend(q, data);
    assert Sum(q[..1]) == 0xFE by { assert q[..1][..0] == []; }
    assert Sum(q[..2]) == 0xFE + 0xEF by { assert q[..2][..1] == q[..1]; }
    assert Sum(q[..3]) == 0xFE + 0xEF + len by { assert q[..3][..2] == q[..2]; }
    assert Sum(q[..4]) == 0xFE + 0xEF + len + instruction by { assert q[..4][..3] == q[..3]; }
    assert Sum(q) == 0xFE + 0xEF + len + instruction + writeSwitch by { assert q[..4] == q[..|q| - 1]; }
  }

  /** A returned packet is framed as header, length, instruction, write switch and data, in order. */
  lemma ForgedPacketLayout(instruction: int, writeSwitch: int, data: seq<int>, terminal: int)
    requires Forge(instruction, writeSwitch, data, terminal).Packet?
    ensures var b := Forge(instruction, writeSwitch, data, terminal).bytes;
      && |b| == 6 + |data| + TerminalCount(terminal)
      && b[0] == 0xFE && b[1] == 0xEF
      && b[2] == |data| + 3 + TerminalCount(terminal)
      && b[3] == instruction && b[4] == writeSwitch
      && b[5..5 + |data|] == data
      && (terminal != 0 ==> b[|b| - 1] == terminal)
  {
  }

  /**
   * Only the first allowed size at or above the base sum can be taken: a
   * later size is larger, so its padding is larger still.
   */
  lemma {:induction false} OnlyFirstCandidateFits(s: int, terminal: int, k: nat)
    requires FirstFit(PacketSizes, 0, s, terminal) == Some(k)
    ensures forall j :: 0 <= j < k ==> PacketSizes[j] < s
    ensures k == 0 || PacketSizes[k - 1] < s
  {
    PacketSizesAscending();
    forall j | 0 <= j < k
      ensures PacketSizes[j] < s
    {
      assert !Fits(PacketSizes[j], s, terminal);
      assert PacketSizes[j] < PacketSizes[k];
    }
  }

  /**
   * On the normal path the padding byte is the chosen size minus the base
   * sum (plus one with a terminal), it lies in 0..255, and the chosen size
   * is the first one at or above the base sum.
   */
  lemma ForgedPadding(instruction: int, writeSwitch: int, data: seq<int>, terminal: int)
    requires Forge(instruction, writeSwitch, data, terminal).Packet?
    ensures var s := BaseSum(instruction, writeSwitch, data, terminal);
      var b := Forge(instruction, writeSwitch, data, terminal).bytes;
      exists k :: 0 <= k < |PacketSizes|
        && PacketSizes[k] >= s
        && (forall j :: 0 <= j < k ==> PacketSizes[j] < s)
        && b[5 + |data|] == PacketSizes[k] - s + TerminalCount(terminal)
        && 0 <= b[5 + |data|] <= 255
  {
    var s := BaseSum(instruction, writeSwitch, data, terminal);
    var k := FirstFit(PacketSizes, 0, s, terminal).value;
    OnlyFirstCandidateFits(s, terminal, k);
  }

  /**
   * On the normal path the bytes of the packet add up to the chosen size,
   * plus one when a terminal byte is given; without a terminal the packet's
   * byte sum is therefore one of the allowed sizes.
   */
  lemma ForgedChecksum(instruction: int, writeSwitch: int, data: seq<int>, terminal: int)
    requires Forge(instruction, writeSwitch, data, terminal).Packet?
    ensures var b := Forge(instruction, writeSwitch, data, terminal).bytes;
      var k := FirstFit(PacketSizes, 0, BaseSum(instruction, writeSwitch, data, terminal), terminal).value;
      Sum(b) == PacketSizes[k] + TerminalCount(terminal)
    ensures terminal == 0 ==> Sum(Forge(instruction, writeSwitch, data, terminal).bytes) in PacketSizes
  {
    var p := Prefix(instruction, writeSwitch, data, terminal);
    var s := terminal + Sum(p);
    var k := FirstFit(PacketSizes, 0, s, terminal).value;
    var pad := Padding(PacketSizes[k], s, terminal);
    SumAppend(p, [pad]);
    SumAppend(p + [pad], Trailer(terminal));
    assert Sum([pad]) == pad by {
      assert [pad][..0] == [];
    }
    if terminal != 0 {
      assert Sum([terminal]) == terminal by {
        assert [terminal][..0] == [];
      }
    }
  }

  /**
   * The forge raises (the fallback's `.hex()` on a list) exactly when no
   * allowed size fits; the list it raised on has the length field lowered by
   * one and the terminal appended instead of a padding byte.
   */
  lemma FallbackRaises(instruction: int, writeSwitch: int, data: seq<int>, terminal: int)
    ensures var s := BaseSum(instruction, writeSwitch, data, terminal);
      var f := Forge(instruction, writeSwitch, data, terminal);
      (f.Raised? && f.error.ListHasNoHex?) <==> (forall k :: 0 <= k < |PacketSizes| ==> !Fits(PacketSizes[k], s, terminal))
    ensures var f := Forge(instruction, writeSwitch, data, terminal);
      f.Raised? && f.error.ListHasNoHex? ==>
        var l := f.error.list;
        && |l| == 6 + |data|
        && l[..2] == Header
        && l[2] == DeclaredLength(data, terminal) - 1
        && l[3] == instruction && l[4] == writeSwitch
        && l[5..5 + |data|] == data
        && l[5 + |data|] == terminal
  {
  }

  /** A base sum beyond the largest allowed size always takes the fallback. */
  lemma OversizedRaises(instruction: int, writeSwitch: int, data: seq<int>, terminal: int)
    requires BaseSum(instruction, writeSwitch, data, terminal) > 5677
    ensures Forge(instruction, writeSwitch, data, terminal).Raised?
    ensures Forge(instruction, writeSwitch, data, terminal).error.ListHasNoHex?
  {
  }

  /** Without a terminal, every base sum in 497..1522 gets a one-byte padding. */
  lemma OneBytePaddingWithoutTerminal(s: int)
    requires 497 <= s <= 1522
    ensures FirstFit(PacketSizes, 0, s, 0).Some?
  {
    var k := if s <= 752 then 0 else if s <= 1008 then 1 else if s <= 1010 then 3 else if s <= 1266 then 4 else 5;
    assert Fits(PacketSizes[k], s, 0);
  }

  /** With a terminal, the gaps of 256 leave the base sums 753, 1011 and 1267 without any fitting size. */
  lemma TerminalGapSums(s: int, terminal: int)
    requires terminal != 0
    requires s == 753 || s == 1011 || s == 1267
    ensures FirstFit(PacketSizes, 0, s, terminal).None?
  {
  }

  // ----- The value converters -----

  function Max(a: int, b: int): int { if a >= b then a else b }
  function Min(a: int, b: int): int { if a <= b then a else b }

  /** Brightness 0..255 onto the device's 0..200, after clamping. */
  function ConvertBrightness(value: int): (r: int)
    ensures 0 <= r <= 200
  {
    var v := Max(0, Min(255, value));
    v * 200 / 255
  }

  /** Colour temperature, clamped to the device's Kelvin limits, onto 200..0 (warmer is higher). */
  function ConvertTempKelvin(value: int): (r: int)
    ensures 0 <= r <= 200
  {
    var v := Max(DeviceMinKelvin, Min(DeviceMaxKelvin, value));
    200 - (v - DeviceMinKelvin) * 200 / (DeviceMaxKelvin - DeviceMinKelvin)
  }

  /** Brightness clamps first: 0 and below read as 0, 255 and above as 255; the result never decreases. */
  lemma BrightnessProperties(a: int, b: int)
    requires a <= b
    ensures ConvertBrightness(a) <= ConvertBrightness(b)
    ensures ConvertBrightness(0) == 0
    ensures a <= 0 ==> ConvertBrightness(a) == 0
    ensures b >= 255 ==> ConvertBrightness(b) == ConvertBrightness(255)
  {
  }

  /**
   * The Kelvin converter is `200 - (v - 2700) * 200 div 3800` of the clamped
   * value: 2700 K (and below) gives 200, 6500 K (and above) gives 0, and the
   * result never increases with the temperature.
   */
  lemma KelvinProperties(a: int, b: int)
    requires a <= b
    ensures ConvertTempKelvin(b) <= ConvertTempKelvin(a)
    ensures ConvertTempKelvin(2700) == 200 && ConvertTempKelvin(6500) == 0
    ensures a <= 2700 ==> ConvertTempKelvin(a) == 200
    ensures b >= 6500 ==> ConvertTempKelvin(b) == 0
    ensures 2700 <= a <= 6500 ==> ConvertTempKelvin(a) == 200 - (a - 2700) * 200 / 3800
  {
  }
}
