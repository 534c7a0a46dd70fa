/**
 * The device client: one object per bulb, caching what it last set and
 * sending each command as a forged packet over a fresh TCP connection.
 *
 * The sockets are not modelled. A TCP exchange is the parameter
 * `delivered` (did connect-and-send succeed); the transport then returns
 * Python's `True` or `False`, written `Some(true)` / `Some(false)`, and never
 * `None`. A UDP liveness probe is the parameter `reply`, the datagram that
 * came back or `None` on timeout or socket error.
 */
module DeviceClient {
  import opened Wrappers
  import opened Common
  import opened Constants
  import opened Codec
  import opened Effects
  import opened StateManagement

  const PowerInstruction: int := 0xA3
  const BrightnessInstruction: int := 0xA7
  const ColorInstruction: int := 0xA1
  const EffectInstruction: int := 0xA5
  const WriteSwitch: int := 1
  const PowerOnCode: int := 17
  const PowerOffCode: int := 18
  /** The terminal byte of temperature packets and of primary-colour packets. */
  const WarmTerminal: int := 94
  const LivenessProbe: string := "HLK"

  type Datagram = seq<Byte>

  /** What `set_color` and `set_effect` do: return a boolean, or raise from the forge. */
  datatype Reply = Returned(ok: bool) | Threw(error: ForgeError)

  /** Python truthiness of the transport's result (`True`, `False` or `None`). */
  predicate Truthy(result: Option<bool>) {
    result == Some(true)
  }

  /**
   * The terminal byte `set_color` uses: 94 only for a list equal to a pure
   * primary, so a colour held as a tuple never takes it.
   */
  function ColorTerminal(color: Rgb): (t: int)
    ensures t == 0 || t == WarmTerminal
    ensures color.container == Tuple ==> t == 0
    ensures t == WarmTerminal ==> color.r + color.g + color.b == 255
  {
    if color.container == List
       && ((color.r, color.g, color.b) == (255, 0, 0)
           || (color.r, color.g, color.b) == (0, 255, 0)
           || (color.r, color.g, color.b) == (0, 0, 255))
    then WarmTerminal
    else 0
  }

  function ColorData(color: Rgb): seq<int> {
    [color.r, color.g, color.b]
  }

  // ----- What the codec does with the device's own commands -----

  /** The base sum of a one-byte command. */
  lemma OneByteBaseSum(instruction: int, writeSwitch: int, x: int, terminal: int)
    ensures BaseSum(instruction, writeSwitch, [x], terminal)
         == terminal + 0xFE + 0xEF + 4 + TerminalCount(terminal) + instruction + writeSwitch + x
  {
    PrefixSum(instruction, writeSwitch, [x], terminal);
    assert Sum([x]) == x by {
      assert [x][..0] == [];
    }
  }

  /** The two power packets, as they go on the wire. */
  function PowerPacket(on: bool): seq<Byte> {
    if on then [0xFE, 0xEF, 4, 0xA3, 1, 17, 74] else [0xFE, 0xEF, 4, 0xA3, 1, 18, 73]
  }

  /** Power packets always forge: on and off differ only in the payload byte and the padding. */
  lemma PowerPackets()
    ensures Forge(PowerInstruction, WriteSwitch, [PowerOnCode], 0) == Packet(PowerPacket(true))
    ensures Forge(PowerInstruction, WriteSwitch, [PowerOffCode], 0) == Packet(PowerPacket(false))
  {
    OneByteBaseSum(PowerInstruction, WriteSwitch, PowerOnCode, 0);
    OneByteBaseSum(PowerInstruction, WriteSwitch, PowerOffCode, 0);
    assert FirstFit(PacketSizes, 0, 678, 0) == Some(0);
    assert FirstFit(PacketSizes, 0, 679, 0) == Some(0);
  }

  /** The brightness packet: the converted value, padded up to 752 or, above a base sum of 752, to 1008. */
  function BrightnessPacket(value: int): seq<Byte> {
    var x := ConvertBrightness(value);
    [0xFE, 0xEF, 4, 0xA7, 1, x, if 665 + x <= 752 then 87 - x else 343 - x]
  }

  /** Any brightness forges, to the packet above: the converted value keeps the base sum in 665..865. */
  lemma BrightnessPacketForges(value: int)
    ensures Forge(BrightnessInstruction, WriteSwitch, [ConvertBrightness(value)], 0) == Packet(BrightnessPacket(value))
  {
    var x := ConvertBrightness(value);
    OneByteBaseSum(BrightnessInstruction, WriteSwitch, x, 0);
    var s := 665 + x;
    var k := if s <= 752 then 0 else 1;
    assert FirstFit(PacketSizes, 0, s, 0) == Some(k);
    var list := Prefix(BrightnessInstruction, WriteSwitch, [x], 0) + [Padding(PacketSizes[k], s, 0)] + Trailer(0);
    assert list == [0xFE, 0xEF, 4, 0xA7, 1, x, PacketSizes[k] - s];
    assert AllBytes(list);
  }

  /** The temperature packet: the converted value, padding 255 minus it, and the terminal byte. */
  function TemperaturePacket(value: int): seq<Byte> {
    var x := ConvertTempKelvin(value);
    [0xFE, 0xEF, 5, 0xA1, 1, x, 255 - x, 94]
  }

  /**
   * Any temperature forges, to the packet above: the base sum is 754..954,
   * so the packet is padded to 1008 with 255 minus the converted value.
   */
  lemma TemperaturePacketForges(value: int)
    ensures Forge(ColorInstruction, WriteSwitch, [ConvertTempKelvin(value)], WarmTerminal) == Packet(TemperaturePacket(value))
  {
    var x := ConvertTempKelvin(value);
    OneByteBaseSum(ColorInstruction, WriteSwitch, x, WarmTerminal);
    assert FirstFit(PacketSizes, 0, 754 + x, WarmTerminal) == Some(1);
    var list := Prefix(ColorInstruction, WriteSwitch, [x], WarmTerminal) + [Padding(1008, 754 + x, WarmTerminal)] + Trailer(WarmTerminal);
    assert list == [0xFE, 0xEF, 5, 0xA1, 1, x, 255 - x, 94];
    assert AllBytes(list);
  }

  lemma ThreeByteBaseSum(instruction: int, writeSwitch: int, c: Rgb, terminal: int)
    ensures BaseSum(instruction, writeSwitch, ColorData(c), terminal)
         == terminal + 0xFE + 0xEF + 6 + TerminalCount(terminal) + instruction + writeSwitch + c.r + c.g + c.b
  {
    var d := ColorData(c);
    PrefixSum(instruction, writeSwitch, d, terminal);
    assert Sum(d) == c.r + c.g + c.b by {
      assert [c.r][..0] == [];
      assert Sum([c.r]) == c.r;
      assert [c.r, c.g][..1] == [c.r];
      assert Sum([c.r, c.g]) == c.r + c.g;
      assert d[..2] == [c.r, c.g];
    }
  }

  /** A tuple colour never takes the terminal byte, and with components in 0..255 it always forges. */
  lemma TupleColorForges(c: Rgb)
    requires c.container == Tuple
    requires 0 <= c.r <= 255 && 0 <= c.g <= 255 && 0 <= c.b <= 255
    ensures ColorTerminal(c) == 0
    ensures var f := Forge(ColorInstruction, WriteSwitch, ColorData(c), ColorTerminal(c));
      f.Packet? && |f.bytes| == 9 && f.bytes[..8] == [0xFE, 0xEF, 6, 0xA1, 1, c.r, c.g, c.b]
  {
    ThreeByteBaseSum(ColorInstruction, WriteSwitch, c, 0);
    var s := 661 + c.r + c.g + c.b;
    OneBytePaddingWithoutTerminal(s);
    var k := FirstFit(PacketSizes, 0, s, 0).value;
    var list := Prefix(ColorInstruction, WriteSwitch, ColorData(c), 0) + [Padding(PacketSizes[k], s, 0)] + Trailer(0);
    assert list == [0xFE, 0xEF, 6, 0xA1, 1, c.r, c.g, c.b, PacketSizes[k] - s];
    assert AllBytes(list);
  }

  /**
   * A pure primary given as a list takes the terminal byte; its base sum is
   * then 1011, for which no allowed size fits, so the forge raises.
   */
  lemma PrimaryListColorRaises(c: Rgb)
    requires c.container == List
    requires (c.r, c.g, c.b) in {(255, 0, 0), (0, 255, 0), (0, 0, 255)}
    ensures ColorTerminal(c) == WarmTerminal
    ensures var f := Forge(ColorInstruction, WriteSwitch, ColorData(c), ColorTerminal(c));
      f.Raised? && f.error.ListHasNoHex?
  {
    ThreeByteBaseSum(ColorInstruction, WriteSwitch, c, WarmTerminal);
    TerminalGapSums(1011, WarmTerminal);
  }

  /** The effect packet for a code of at most 89: padded up to 752. */
  function EffectPacket(x: int): seq<Byte>
    requires 0 <= x <= 89
  {
    [0xFE, 0xEF, 4, 0xA5, 1, x, 89 - x]
  }

  /** Every effect of the table forges, to the packet above: its base sum 663 + code stays at or below 752. */
  lemma EffectPacketsForge()
    ensures forall i :: 0 <= i < |AvailableEffects| ==> 0 <= AvailableEffects[i].1.instruction <= 89
    ensures forall i :: 0 <= i < |AvailableEffects| ==>
      Forge(EffectInstruction, WriteSwitch, [AvailableEffects[i].1.instruction], 0)
        == Packet(EffectPacket(AvailableEffects[i].1.instruction))
  {
    EffectTableShape();
    forall i | 0 <= i < |AvailableEffects|
      ensures Forge(EffectInstruction, WriteSwitch, [AvailableEffects[i].1.instruction], 0)
        == Packet(EffectPacket(AvailableEffects[i].1.instruction))
    {
      var x := AvailableEffects[i].1.instruction;
      OneByteBaseSum(EffectInstruction, WriteSwitch, x, 0);
      assert FirstFit(PacketSizes, 0, 663 + x, 0) == Some(0);
      var list := Prefix(EffectInstruction, WriteSwitch, [x], 0) + [Padding(752, 663 + x, 0)] + Trailer(0);
      assert list == [0xFE, 0xEF, 4, 0xA5, 1, x, 89 - x];
      assert AllBytes(list);
    }
  }

  /** The device's own Kelvin limits are the integration's. */
  lemma DeviceKelvinLimits()
    ensures DeviceMinKelvin == TempColorMinK && DeviceMaxKelvin == TempColorMaxK
  {
  }

  // ----- The client -----

  class Device {
    const ip: string
    const manager: StateManager
    var available: bool
    var state: bool
    var brightness: int
    var colorTemp: int
    var effect: Option<string>
    var rgb: Rgb
    var lastCommandSuccess: bool
    /** Every packet handed to the TCP transport, oldest first. */
    ghost var sent: seq<seq<Byte>>

    constructor (ip: string, manager: StateManager)
      ensures this.ip == ip && this.manager == manager
      ensures !available && !state && !lastCommandSuccess
      ensures brightness == BaseBrightness && colorTemp == BaseColorK && rgb == BaseColorRgb && effect == None
      ensures sent == []
    {
      this.ip := ip;
      this.manager := manager;
      available := false;
      state := false;
      brightness := 255;
      colorTemp := 4000;
      effect := None;
      rgb := Rgb(Tuple, 255, 255, 255);
      lastCommandSuccess := false;
      sent := [];
    }

    /** The dictionary published to the registry after a command. */
    function Notice(): LightState
      reads this
    {
      LightState(if state then StateOn else StateOff, brightness, colorTemp, rgb, effect)
    }

    /** `__sendUDPPacket`: the reply, or `None`, and whether one came back. */
    method SendUdp(message: string, reply: Option<Datagram>) returns (result: Option<Datagram>)
      modifies this`lastCommandSuccess
      ensures result == reply
      ensures lastCommandSuccess == reply.Some?
    {
      result := reply;
      lastCommandSuccess := result.Some?;
    }

    /** `__sendTCPPacket`: `True` when the packet went out; on any error `False`, and the device is marked unavailable. */
    method SendTcp(packet: seq<Byte>, delivered: bool) returns (result: Option<bool>)
      modifies this`available, this`sent
      ensures result.Some?
      ensures result == Some(delivered)
      ensures available == (old(available) && delivered)
      ensures sent == old(sent) + [packet]
    {
      sent := sent + [packet];
      if delivered {
        result := Some(true);
      } else {
        available := false;
        result := Some(false);
      }
    }

    /** The `available` property: probes the bulb and stores the answer. */
    method Available(reply: Option<Datagram>) returns (b: bool)
      modifies this`available, this`lastCommandSuccess
      ensures b == reply.Some? && available == b
      ensures lastCommandSuccess == reply.Some?
    {
      var result := SendUdp(LivenessProbe, reply);
      available := result.Some?;
      b := available;
    }

    /** Probes the bulb and reports the answer with the cached fields; `available` itself is not written. */
    method GetState(reply: Option<Datagram>) returns (report: StateReport)
      modifies this`lastCommandSuccess
      ensures report.available == reply.Some?
      ensures report.state == (if state then StateOn else StateOff)
      ensures report.brightness == brightness && report.colorTemp == colorTemp
      ensures report.rgb == rgb && report.effect == effect
      ensures lastCommandSuccess == reply.Some?
    {
      var watchdog := SendUdp(LivenessProbe, reply);
      report := StateReport(watchdog.Some?, if state then StateOn else StateOff, brightness, colorTemp, rgb, effect);
    }

    method NotifyStateChange()
      modifies manager
      ensures manager.states == old(manager.states)[ip := Notice()]
      ensures manager.subscribers == old(manager.subscribers)
    {
      var calls := manager.UpdateState(ip, Notice());
    }

    method TurnOnOff(on: bool, delivered: bool) returns (result: Option<bool>)
      modifies this`available, this`sent
      ensures result == Some(delivered)
      ensures available == (old(available) && delivered)
      ensures sent == old(sent) + [PowerPacket(on)]
    {
      var value := if on then PowerOnCode else PowerOffCode;
      var packet := ForgeInstruction(PowerInstruction, WriteSwitch, [value], 0);
      PowerPackets();
      result := SendTcp(packet.bytes, delivered);
    }

    /** Sets the on-flag and publishes it only when the transport's result is truthy. */
    method TurnOn(delivered: bool) returns (ok: bool)
      modifies this, manager
      ensures ok == delivered
      ensures state == (old(state) || delivered)
      ensures available == (old(available) && delivered)
      ensures sent == old(sent) + [PowerPacket(true)]
      ensures brightness == old(brightness) && colorTemp == old(colorTemp)
      ensures rgb == old(rgb) && effect == old(effect) && lastCommandSuccess == old(lastCommandSuccess)
      ensures manager.states == if delivered then old(manager.states)[ip := Notice()] else old(manager.states)
      ensures manager.subscribers == old(manager.subscribers)
    {
      var result := TurnOnOff(true, delivered);
      if Truthy(result) {
        state := true;
        NotifyStateChange();
        ok := true;
      } else {
        ok := false;
      }
    }

    /** Clears the on-flag and publishes it only when the transport's result is truthy. */
    method TurnOff(delivered: bool) returns (ok: bool)
      modifies this, manager
      ensures ok == delivered
      ensures state == (old(state) && !delivered)
      ensures available == (old(available) && delivered)
      ensures sent == old(sent) + [PowerPacket(false)]
      ensures brightness == old(brightness) && colorTemp == old(colorTemp)
      ensures rgb == old(rgb) && effect == old(effect) && lastCommandSuccess == old(lastCommandSuccess)
      ensures manager.states == if delivered then old(manager.states)[ip := Notice()] else old(manager.states)
      ensures manager.subscribers == old(manager.subscribers)
    {
      var result := TurnOnOff(false, delivered);
      if Truthy(result) {
        state := false;
        NotifyStateChange();
        ok := true;
      } else {
        ok := false;
      }
    }

    /**
     * Sends the converted brightness; the result is tested with `is not None`,
     * which `False` passes, so the raw value is always stored and published.
     */
    method SetBrightness(value: int, delivered: bool) returns (ok: bool)
      modifies this, manager
      ensures ok
      ensures brightness == value
      ensures available == (old(available) && delivered)
      ensures sent == old(sent) + [BrightnessPacket(value)]
      ensures state == old(state) && colorTemp == old(colorTemp) && rgb == old(rgb) && effect == old(effect)
      ensures lastCommandSuccess == old(lastCommandSuccess)
      ensures manager.states == old(manager.states)[ip := Notice()]
      ensures manager.subscribers == old(manager.subscribers)
    {
      var converted := ConvertBrightness(value);
      var packet := ForgeInstruction(BrightnessInstruction, WriteSwitch, [converted], 0);
      BrightnessPacketForges(value);
      var result := SendTcp(packet.bytes, delivered);
      if result.Some? {
        brightness := value;
        NotifyStateChange();
        ok := true;
      } else {
        ok := false;
      }
    }

    /** Sends the converted temperature with the terminal byte; like brightness, it always stores the raw value. */
    method SetTemperature(value: int, delivered: bool) returns (ok: bool)
      modifies this, manager
      ensures ok
      ensures colorTemp == value
      ensures available == (old(available) && delivered)
      ensures sent == old(sent) + [TemperaturePacket(value)]
      ensures state == old(state) && brightness == old(brightness) && rgb == old(rgb) && effect == old(effect)
      ensures lastCommandSuccess == old(lastCommandSuccess)
      ensures manager.states == old(manager.states)[ip := Notice()]
      ensures manager.subscribers == old(manager.subscribers)
    {
      var converted := ConvertTempKelvin(value);
      var packet := ForgeInstruction(ColorInstruction, WriteSwitch, [converted], WarmTerminal);
      TemperaturePacketForges(value);
      var result := SendTcp(packet.bytes, delivered);
      if result.Some? {
        colorTemp := value;
        NotifyStateChange();
        ok := true;
      } else {
        ok := false;
      }
    }

    /**
     * Sends the three components, with the terminal byte for a list primary.
     * When the forge raises nothing is sent and nothing changes; otherwise
     * the colour is always stored and `True` returned.
     */
    method SetColor(color: Rgb, delivered: bool) returns (reply: Reply)
      modifies this, manager
      ensures var f := Forge(ColorInstruction, WriteSwitch, ColorData(color), ColorTerminal(color));
        && (reply.Threw? <==> f.Raised?)
        && (reply.Threw? ==> reply.error == f.error)
        && (f.Packet? ==> sent == old(sent) + [f.bytes])
      ensures reply.Threw? ==> unchanged(this) && unchanged(manager)
      ensures reply.Returned? ==> reply.ok && rgb == color
      ensures reply.Returned? ==> available == (old(available) && delivered)
      ensures reply.Returned? ==> manager.states == old(manager.states)[ip := Notice()]
      ensures state == old(state) && brightness == old(brightness) && colorTemp == old(colorTemp) && effect == old(effect)
      ensures lastCommandSuccess == old(lastCommandSuccess)
      ensures manager.subscribers == old(manager.subscribers)
    {
      var finalByte := 0;
      if color.container == List
         && ((color.r, color.g, color.b) == (255, 0, 0)
             || (color.r, color.g, color.b) == (0, 255, 0)
             || (color.r, color.g, color.b) == (0, 0, 255)) {
        finalByte := 94;
      }
      var packet := ForgeInstruction(ColorInstruction, WriteSwitch, [color.r, color.g, color.b], finalByte);
      if packet.Raised? {
        return Threw(packet.error);
      }
      var result := SendTcp(packet.bytes, delivered);
      if result.Some? {
        rgb := color;
        NotifyStateChange();
        reply := Returned(true);
      } else {
        reply := Returned(false);
      }
    }

    /** Sends an effect code and, the forge permitting, always stores the effect's name. */
    method SetEffect(code: int, name: string, delivered: bool) returns (reply: Reply)
      modifies this, manager
      ensures var f := Forge(EffectInstruction, WriteSwitch, [code], 0);
        && (reply.Threw? <==> f.Raised?)
        && (reply.Threw? ==> reply.error == f.error)
        && (f.Packet? ==> sent == old(sent) + [f.bytes])
      ensures reply.Threw? ==> unchanged(this) && unchanged(manager)
      ensures reply.Returned? ==> reply.ok && effect == Some(name)
      ensures reply.Returned? ==> available == (old(available) && delivered)
      ensures reply.Returned? ==> manager.states == old(manager.states)[ip := Notice()]
      ensures state == old(state) && brightness == old(brightness) && colorTemp == old(colorTemp) && rgb == old(rgb)
      ensures lastCommandSuccess == old(lastCommandSuccess)
      ensures manager.subscribers == old(manager.subscribers)
    {
      var packet := ForgeInstruction(EffectInstruction, WriteSwitch, [code], 0);
      if packet.Raised? {
        return Threw(packet.error);
      }
      var result := SendTcp(packet.bytes, delivered);
      if result.Some? {
        effect := Some(name);
        NotifyStateChange();
        reply := Returned(true);
      } else {
        reply := Returned(false);
      }
    }
  }
}
