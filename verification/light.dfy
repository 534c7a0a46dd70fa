/**
 * The Home Assistant light entities: a single bulb and a group of bulbs.
 * Each drives `Device` objects; what a command does to the bulbs is what the
 * device client's contracts say, and the network's answers come in as
 * parameters (`Network` for the TCP exchanges of a `turn_on`, a delivered
 * flag for a `turn_off`, a UDP reply per liveness probe).
 */
module Light {
  import opened Wrappers
  import opened Common
  import opened Constants
  import opened Codec
  import opened Effects
  import opened StateManagement
  import opened DeviceClient

  datatype ColorMode = RgbMode | ColorTempMode

  /** The keyword arguments of `turn_on`; an absent keyword is `None`. */
  datatype TurnOnArgs = TurnOnArgs(brightness: Option<int>, colorTempKelvin: Option<int>, rgb: Option<Rgb>, effect: Option<string>)

  /** Whether each TCP exchange that a `turn_on` may make with one bulb goes through. */
  datatype Network = Network(turnOn: bool, brightness: bool, temperature: bool, color: bool, effect: bool)

  /** The entity attributes that `turn_on` may change, besides the state string. */
  datatype Attributes = Attributes(brightness: Option<int>, colorTempKelvin: Option<int>, rgb: Option<Rgb>, effect: Option<string>, mode: ColorMode)

  /** `_saved_states`: the last online state, put back when the light comes back. */
  datatype Saved = Saved(state: string, brightness: Option<int>, effect: Option<string>, colorTempKelvin: Option<int>, rgb: Option<Rgb>)

  /** One attribute of a state Home Assistant restored: missing, or present (possibly as `None`). */
  datatype Entry<T> = Missing | Present(value: Option<T>)

  /** A state Home Assistant restored at start-up. */
  datatype LastState = LastState(state: string, brightness: Entry<int>, effect: Entry<string>, colorTempKelvin: Entry<int>, rgb: Entry<Rgb>)

  /** `attributes.get(key, default)`. */
  function Get<T>(e: Entry<T>, default: Option<T>): Option<T> {
    if e.Present? then e.value else default
  }

  /** `is_on`: only the string "on" is on; unknown and unavailable read as off. */
  predicate IsOnState(state: string) {
    if state == StateUnknown || state == StateUnavailable then false else state == StateOn
  }

  lemma IsOnExactlyOn(state: string)
    ensures IsOnState(state) <==> state == StateOn
  {
  }

  /** The single entity's `turn_on` does anything only from a state other than on, unavailable and unknown. */
  predicate TurnOnActs(state: string) {
    !(state in [StateOn, StateUnavailable, StateUnknown])
  }

  /** The temperatures `turn_on` forwards: the integration's Kelvin range, bounds included. */
  predicate TempInRange(k: int) {
    TempColorMinK <= k <= TempColorMaxK
  }

  /** What `set_color` forges for a colour. */
  function ColorForge(c: Rgb): Forged {
    Forge(ColorInstruction, WriteSwitch, ColorData(c), ColorTerminal(c))
  }

  /** The colour argument is present and `set_color` raises on it. */
  predicate ColorRaises(args: TurnOnArgs) {
    args.rgb.Some? && ColorForge(args.rgb.value).Raised?
  }

  /**
   * With components in 0..255, `set_color` raises exactly for a pure primary
   * given as a list: every other colour forges to a packet.
   */
  lemma ColorRaisesExactlyForListPrimaries(c: Rgb)
    requires 0 <= c.r <= 255 && 0 <= c.g <= 255 && 0 <= c.b <= 255
    ensures ColorForge(c).Raised? <==> c.container == List && (c.r, c.g, c.b) in {(255, 0, 0), (0, 255, 0), (0, 0, 255)}
  {
    if c.container == List && (c.r, c.g, c.b) in {(255, 0, 0), (0, 255, 0), (0, 0, 255)} {
      PrimaryListColorRaises(c);
    } else {
      TupleColorForges(c.(container := Tuple));
      assert ColorForge(c) == ColorForge(c.(container := Tuple));
    }
  }

  // ----- Effects as the entities see them -----

  /** The name an effect is shown and selected by: its translation, or its id when there is none. */
  function DisplayName(translations: map<string, string>, e: LightEffect): string {
    var key := DescriptionKey(e);
    if key in translations then translations[key] else e.id
  }

  /** `effect_list`: the display names, in table order. */
  function EffectList(translations: map<string, string>): (names: seq<string>)
    ensures |names| == |AvailableEffects|
    ensures forall i :: 0 <= i < |names| ==> names[i] == DisplayName(translations, AvailableEffects[i].1)
  {
    seq(|AvailableEffects|, i requires 0 <= i < |AvailableEffects| => DisplayName(translations, AvailableEffects[i].1))
  }

  /** The position, from `from` on, of the first effect of `table` whose display name is `name`. */
  function FirstNamed(translations: map<string, string>, name: string, table: seq<LightEffect>, from: nat): (r: Option<nat>)
    requires from <= |table|
    ensures r.Some? ==> (&& from <= r.value < |table|
                         && DisplayName(translations, table[r.value]) == name
                         && forall j :: from <= j < r.value ==> DisplayName(translations, table[j]) != name)
    ensures r.None? <==> forall j :: from <= j < |table| ==> DisplayName(translations, table[j]) != name
    decreases |table| - from
  {
    if from == |table| then None
    else if DisplayName(translations, table[from]) == name then Some(from)
    else FirstNamed(translations, name, table, from + 1)
  }

  /** The `next(...)` lookup of `turn_on`: the first effect, in table order, shown as `name`, if any. */
  function FindEffect(translations: map<string, string>, name: string): (r: Option<LightEffect>)
    ensures r.None? <==> forall i :: 0 <= i < |AvailableEffects| ==> DisplayName(translations, AvailableEffects[i].1) != name
    ensures r.Some? ==> exists i :: && 0 <= i < |AvailableEffects| && r.value == AvailableEffects[i].1
                                    && forall j :: 0 <= j < i ==> DisplayName(translations, AvailableEffects[j].1) != name
    ensures r.Some? ==> DisplayName(translations, r.value) == name && 0 <= r.value.instruction <= 0x13
  {
    EffectTableShape();
    var table := EffectValues();
    var k := FirstNamed(translations, name, table, 0);
    if k.Some? then Some(table[k.value]) else None
  }

  /**
   * Without translations an effect is selected by its id: the lookup
   * succeeds exactly for the ids of the table and finds that very effect.
   */
  lemma UntranslatedLookup(name: string)
    ensures FindEffect(map[], name).Some? <==> exists i :: 0 <= i < |AvailableEffects| && AvailableEffects[i].1.id == name
    ensures FindEffect(map[], name).Some? ==> FindEffect(map[], name).value.id == name
  {
    var table := EffectValues();
    var k := FirstNamed(map[], name, table, 0);
    if k.None? {
      forall i | 0 <= i < |AvailableEffects|
        ensures AvailableEffects[i].1.id != name
      {
        assert DisplayName(map[], table[i]) != name;
      }
    } else {
      assert DisplayName(map[], table[k.value]) == name;
    }
  }

  /** Every name `effect_list` offers selects an effect when passed back to `turn_on`. */
  lemma ListedNameFound(translations: map<string, string>, i: nat)
    requires i < |EffectList(translations)|
    ensures FindEffect(translations, EffectList(translations)[i]).Some?
    ensures DisplayName(translations, FindEffect(translations, EffectList(translations)[i]).value) == EffectList(translations)[i]
  {
    var table := EffectValues();
    assert DisplayName(translations, table[i]) == EffectList(translations)[i];
  }

  /** Without translations, `effect_list` is the table's ids in order, each listed once. */
  lemma UntranslatedEffectList()
    ensures forall i :: 0 <= i < |EffectList(map[])| ==> EffectList(map[])[i] == AvailableEffects[i].0
    ensures forall i, j :: 0 <= i < j < |EffectList(map[])| ==> EffectList(map[])[i] != EffectList(map[])[j]
  {
    EffectTableShape();
  }

  /** A found effect is an entry of the table, so `set_effect` never raises on it. */
  lemma FoundEffectForges(translations: map<string, string>, name: string)
    ensures FindEffect(translations, name).Some? ==>
      Forge(EffectInstruction, WriteSwitch, [FindEffect(translations, name).value.instruction], 0)
        == Packet(EffectPacket(FindEffect(translations, name).value.instruction))
  {
    EffectPacketsForge();
    var table := EffectValues();
    var k := FirstNamed(translations, name, table, 0);
    if k.Some? {
      assert FindEffect(translations, name).value == AvailableEffects[k.value].1;
    }
  }

  // ----- What one bulb's successful turn_on does to the entity's attributes -----

  /**
   * The attributes after `turn_on` went through on one bulb: brightness and an
   * in-range temperature are always stored (the device reports success for
   * them whatever the network does), then the colour unless `set_color`
   * raised, then a found effect unless an exception stopped the call; the
   * last of temperature, colour and effect to be stored sets the mode.
   */
  function Applied(a: Attributes, args: TurnOnArgs, translations: map<string, string>, colorRaises: bool): (r: Attributes)
    ensures colorRaises ==> r.rgb == a.rgb && r.effect == a.effect
    ensures args == TurnOnArgs(None, None, None, None) ==> r == a
    ensures r.mode != a.mode ==> args.rgb.Some? || args.effect.Some? || args.colorTempKelvin.Some?
  {
    var tempSet := args.colorTempKelvin.Some? && TempInRange(args.colorTempKelvin.value);
    var rgbSet := args.rgb.Some? && !colorRaises;
    var effectSet := args.effect.Some? && FindEffect(translations, args.effect.value).Some? && !colorRaises;
    Attributes(
      if args.brightness.Some? then args.brightness else a.brightness,
      if tempSet then args.colorTempKelvin else a.colorTempKelvin,
      if rgbSet then args.rgb else a.rgb,
      if effectSet then args.effect else a.effect,
      if rgbSet || effectSet then RgbMode else if tempSet then ColorTempMode else a.mode)
  }

  /** Applying the same arguments again changes nothing: every bulb of a group leaves the same attributes. */
  lemma AppliedIdempotent(a: Attributes, args: TurnOnArgs, translations: map<string, string>, colorRaises: bool)
    ensures Applied(Applied(a, args, translations, colorRaises), args, translations, colorRaises)
         == Applied(a, args, translations, colorRaises)
  {
  }

  /** The mode ends as colour temperature exactly when a temperature was stored and neither a colour nor an effect was. */
  lemma AppliedMode(a: Attributes, args: TurnOnArgs, translations: map<string, string>)
    requires a.mode == RgbMode
    ensures Applied(a, args, translations, ColorRaises(args)).mode == ColorTempMode
        <==> && args.colorTempKelvin.Some? && TempInRange(args.colorTempKelvin.value)
             && (args.rgb.None? || ColorRaises(args))
             && (args.effect.None? || FindEffect(translations, args.effect.value).None? || ColorRaises(args))
  {
  }

  /** The keyword arguments a restore passes to `turn_on`: each saved value that is not `None`. */
  function RestoreArgs(s: Saved): TurnOnArgs {
    TurnOnArgs(s.brightness, s.colorTempKelvin, s.rgb, s.effect)
  }

  function AttributesOf(s: Saved, mode: ColorMode): Attributes {
    Attributes(s.brightness, s.colorTempKelvin, s.rgb, s.effect, mode)
  }

  /** The dictionary keys of a group, in first-occurrence order. */
  function Dedup(ips: seq<string>): (r: seq<string>)
    ensures forall i, j :: 0 <= i < j < |r| ==> r[i] != r[j]
    ensures forall x :: x in r <==> x in ips
    ensures |r| <= |ips|
  {
    if ips == [] then []
    else
      var rest := Dedup(ips[..|ips| - 1]);
      var last := ips[|ips| - 1];
      assert forall x :: x in ips <==> x in ips[..|ips| - 1] || x == last;
      if last in rest then rest else rest + [last]
  }

  /** Keys keep their first occurrence: an IP read after the others is appended only when it is new. */
  lemma DedupSnoc(ips: seq<string>, ip: string)
    ensures Dedup(ips + [ip]) == if ip in Dedup(ips) then Dedup(ips) else Dedup(ips) + [ip]
  {
    assert (ips + [ip])[..|ips + [ip]| - 1] == ips;
  }

  // ----- The packets `turn_on` sends to one bulb -----

  function BrightnessPackets(args: TurnOnArgs): seq<seq<Byte>> {
    if args.brightness.Some? then [BrightnessPacket(args.brightness.value)] else []
  }

  function TemperaturePackets(args: TurnOnArgs): seq<seq<Byte>> {
    if args.colorTempKelvin.Some? && TempInRange(args.colorTempKelvin.value)
    then [TemperaturePacket(args.colorTempKelvin.value)] else []
  }

  function ColorPackets(args: TurnOnArgs): seq<seq<Byte>> {
    if args.rgb.Some? && ColorForge(args.rgb.value).Packet? then [ColorForge(args.rgb.value).bytes] else []
  }

  function EffectPackets(args: TurnOnArgs, translations: map<string, string>): seq<seq<Byte>> {
    if args.effect.Some? && FindEffect(translations, args.effect.value).Some?
    then [EffectPacket(FindEffect(translations, args.effect.value).value.instruction)] else []
  }

  /**
   * The packets of the settings part of `turn_on`, in order: brightness, an
   * in-range temperature, then, unless `set_color` raises (which sends
   * nothing and ends the call), the colour and a found effect.
   */
  function SettingsPackets(args: TurnOnArgs, translations: map<string, string>): seq<seq<Byte>> {
    BrightnessPackets(args) + TemperaturePackets(args)
      + (if ColorRaises(args) then [] else ColorPackets(args) + EffectPackets(args, translations))
  }

  /** The transcript after the steps one by one is the transcript with all settings packets appended. */
  lemma SettingsPacketsInOrder(sent: seq<seq<Byte>>, args: TurnOnArgs, translations: map<string, string>)
    ensures sent + BrightnessPackets(args) + TemperaturePackets(args)
              + (if ColorRaises(args) then [] else ColorPackets(args) + EffectPackets(args, translations))
         == sent + SettingsPackets(args, translations)
  {
  }

  /** The brightness step of `turn_on`: `set_brightness` always reports success, so a given brightness is stored. */
  method SendBrightness(d: Device, a: Attributes, args: TurnOnArgs, net: Network) returns (b: Attributes)
    modifies d, d.manager
    ensures b == if args.brightness.Some? then a.(brightness := args.brightness) else a
    ensures d.state == old(d.state)
    ensures d.sent == old(d.sent) + BrightnessPackets(args)
    ensures args.brightness.None? ==> unchanged(d) && unchanged(d.manager)
  {
    b := a;
    if args.brightness.Some? {
      var ok := d.SetBrightness(args.brightness.value, net.brightness);
      if ok {
        b := b.(brightness := args.brightness);
      }
    }
  }

  /** The temperature step: a temperature in range is sent, stored, and selects colour-temperature mode. */
  method SendTemperature(d: Device, a: Attributes, args: TurnOnArgs, net: Network) returns (b: Attributes)
    modifies d, d.manager
    ensures b == if args.colorTempKelvin.Some? && TempInRange(args.colorTempKelvin.value)
                 then a.(colorTempKelvin := args.colorTempKelvin, mode := ColorTempMode) else a
    ensures d.state == old(d.state)
    ensures d.sent == old(d.sent) + TemperaturePackets(args)
    ensures TemperaturePackets(args) == [] ==> unchanged(d) && unchanged(d.manager)
  {
    b := a;
    if args.colorTempKelvin.Some? {
      var temp := args.colorTempKelvin.value;
      if TempColorMinK <= temp <= TempColorMaxK {
        var ok := d.SetTemperature(temp, net.temperature);
        if ok {
          b := b.(colorTempKelvin := Some(temp), mode := ColorTempMode);
        }
      }
    }
  }

  /** The colour step: `set_color` either raises, or reports success and the colour is stored in RGB mode. */
  method SendColor(d: Device, a: Attributes, args: TurnOnArgs, net: Network) returns (b: Attributes, raised: Option<ForgeError>)
    modifies d, d.manager
    ensures raised == (if ColorRaises(args) then Some(ColorForge(args.rgb.value).error) else None)
    ensures b == if args.rgb.Some? && !ColorRaises(args) then a.(rgb := args.rgb, mode := RgbMode) else a
    ensures d.state == old(d.state)
    ensures d.sent == old(d.sent) + ColorPackets(args)
    ensures ColorPackets(args) == [] ==> unchanged(d) && unchanged(d.manager)
  {
    b := a;
    raised := None;
    if args.rgb.Some? {
      var reply := d.SetColor(args.rgb.value, net.color);
      if reply.Threw? {
        raised := Some(reply.error);
        return;
      }
      if reply.ok {
        b := b.(rgb := args.rgb, mode := RgbMode);
      }
    }
  }

  /** The effect step: a name that matches an effect is sent (this never raises), stored, and selects RGB mode. */
  method SendEffect(d: Device, a: Attributes, args: TurnOnArgs, translations: map<string, string>, net: Network) returns (b: Attributes)
    modifies d, d.manager
    ensures b == if args.effect.Some? && FindEffect(translations, args.effect.value).Some?
                 then a.(effect := args.effect, mode := RgbMode) else a
    ensures d.state == old(d.state)
    ensures d.sent == old(d.sent) + EffectPackets(args, translations)
    ensures EffectPackets(args, translations) == [] ==> unchanged(d) && unchanged(d.manager)
  {
    b := a;
    if args.effect.Some? {
      var found := FindEffect(translations, args.effect.value);
      if found.Some? {
        FoundEffectForges(translations, args.effect.value);
        var reply := d.SetEffect(found.value.instruction, args.effect.value, net.effect);
        assert reply.Returned?;
        if reply.ok {
          b := b.(effect := args.effect, mode := RgbMode);
        }
      }
    }
  }

  /**
   * The colour and effect steps: the effect is sent only when `set_color`
   * did not raise. On the attributes they act as `Applied` does with neither
   * a brightness nor a temperature.
   */
  method SendColorThenEffect(d: Device, a: Attributes, args: TurnOnArgs, translations: map<string, string>, net: Network)
    returns (b: Attributes, raised: Option<ForgeError>)
    modifies d, d.manager
    ensures raised == (if ColorRaises(args) then Some(ColorForge(args.rgb.value).error) else None)
    ensures b == Applied(a, args.(brightness := None, colorTempKelvin := None), translations, ColorRaises(args))
    ensures d.state == old(d.state)
    ensures d.sent == old(d.sent) + (if ColorRaises(args) then [] else ColorPackets(args) + EffectPackets(args, translations))
  {
    b, raised := SendColor(d, a, args, net);
    if raised.Some? {
      return;
    }
    b := SendEffect(d, b, args, translations, net);
  }

  /**
   * The settings part of `turn_on`, once a bulb acknowledged being switched
   * on: brightness, an in-range temperature, the colour and a found effect,
   * in that order. The attributes are those of the calling entity; an
   * exception from `set_color` stops the sequence and is returned.
   */
  method SendSettings(d: Device, a: Attributes, args: TurnOnArgs, translations: map<string, string>, net: Network)
    returns (b: Attributes, raised: Option<ForgeError>)
    modifies d, d.manager
    ensures raised == (if ColorRaises(args) then Some(ColorForge(args.rgb.value).error) else None)
    ensures b == Applied(a, args, translations, ColorRaises(args))
    ensures d.state == old(d.state)
    ensures d.sent == old(d.sent) + SettingsPackets(args, translations)
  {
    ghost var before := d.sent;
    b := SendBrightness(d, a, args, net);
    b := SendTemperature(d, b, args, net);
    b, raised := SendColorThenEffect(d, b, args, translations, net);
    SettingsPacketsInOrder(before, args, translations);
  }

  /**
   * One bulb of a group's `turn_on`: switch it on and, only if it
   * acknowledged, send the settings.
   */
  method SwitchOnBulb(d: Device, a: Attributes, args: TurnOnArgs, translations: map<string, string>, net: Network)
    returns (switched: bool, b: Attributes, raised: Option<ForgeError>)
    modifies d, d.manager
    ensures switched == net.turnOn
    ensures d.state == (old(d.state) || net.turnOn)
    ensures b == if switched then Applied(a, args, translations, ColorRaises(args)) else a
    ensures raised == (if switched && ColorRaises(args) then Some(ColorForge(args.rgb.value).error) else None)
    ensures !switched ==> d.sent == old(d.sent) + [PowerPacket(true)]
  {
    b := a;
    raised := None;
    switched := d.TurnOn(net.turnOn);
    if switched {
      b, raised := SendSettings(d, a, args, translations, net);
    }
  }

  /** One bulb of a group's `turn_off`. */
  method SwitchOffBulb(d: Device, delivered: bool) returns (ok: bool)
    modifies d, d.manager
    ensures ok == delivered
    ensures d.state == (old(d.state) && !delivered)
    ensures d.sent == old(d.sent) + [PowerPacket(false)]
  {
    ok := d.TurnOff(delivered);
  }

  /**
   * The loop of a group's `turn_on` over its bulbs, all sharing `manager`.
   * Every bulb is switched on; those that acknowledge receive the settings,
   * which start from `a` and all leave the same attributes. The first
   * exception from `set_color` ends the loop.
   */
  method SwitchOnAll(devices: seq<Device>, manager: StateManager, a: Attributes, args: TurnOnArgs,
                     translations: map<string, string>, nets: seq<Network>)
    returns (success: bool, b: Attributes, raised: Option<ForgeError>)
    requires |nets| == |devices|
    requires forall k :: 0 <= k < |devices| ==> devices[k].manager == manager
    requires forall k, l :: 0 <= k < l < |devices| ==> devices[k] != devices[l]
    modifies devices, manager
    ensures var anyOn := exists k :: 0 <= k < |nets| && nets[k].turnOn;
      var raises := anyOn && ColorRaises(args);
      && raised == (if raises then Some(ColorForge(args.rgb.value).error) else None)
      && b == (if anyOn then Applied(a, args, translations, raises) else a)
    ensures raised.None? ==> success == forall k :: 0 <= k < |nets| ==> nets[k].turnOn
    ensures raised.None? ==> forall k :: 0 <= k < |devices| ==> devices[k].state == (old(devices[k].state) || nets[k].turnOn)
  {
    raised := None;
    success := true;
    b := a;
    ghost var anyOn := false;
    var i := 0;
    while i < |devices|
      invariant 0 <= i <= |devices|
      invariant success == forall k :: 0 <= k < i ==> nets[k].turnOn
      invariant anyOn == exists k :: 0 <= k < i && nets[k].turnOn
      invariant raised.None? && (!anyOn || !ColorRaises(args))
      invariant b == if anyOn then Applied(a, args, translations, false) else a
      invariant forall k :: 0 <= k < i ==> devices[k].state == (old(devices[k].state) || nets[k].turnOn)
      invariant forall k :: i <= k < |devices| ==> devices[k].state == old(devices[k].state)
    {
      var switched, settled;
      switched, settled, raised := SwitchOnBulb(devices[i], b, args, translations, nets[i]);
      if !switched {
        success := false;
        i := i + 1;
        continue;
      }
      b := settled;
      if raised.Some? {
        return;
      }
      AppliedIdempotent(a, args, translations, false);
      anyOn := true;
      i := i + 1;
    }
  }

  /** The loop of a group's `turn_off`: every bulb is asked, `success` when all acknowledged. */
  method SwitchOffAll(devices: seq<Device>, manager: StateManager, replies: seq<bool>) returns (success: bool)
    requires |replies| == |devices|
    requires forall k :: 0 <= k < |devices| ==> devices[k].manager == manager
    requires forall k, l :: 0 <= k < l < |devices| ==> devices[k] != devices[l]
    modifies devices, manager
    ensures success == forall k :: 0 <= k < |replies| ==> replies[k]
    ensures forall k :: 0 <= k < |devices| ==> devices[k].state == (old(devices[k].state) && !replies[k])
    ensures forall k :: 0 <= k < |devices| ==> devices[k].sent == old(devices[k].sent) + [PowerPacket(false)]
  {
    success := true;
    for i := 0 to |devices|
      invariant success == forall k :: 0 <= k < i ==> replies[k]
      invariant forall k :: 0 <= k < i ==> devices[k].state == (old(devices[k].state) && !replies[k])
      invariant forall k :: 0 <= k < i ==> devices[k].sent == old(devices[k].sent) + [PowerPacket(false)]
      invariant forall k :: i <= k < |devices| ==> devices[k].state == old(devices[k].state) && devices[k].sent == old(devices[k].sent)
    {
      var ok := SwitchOffBulb(devices[i], replies[i]);
      if !ok {
        success := false;
      }
    }
  }

  /**
   * The loop of a group's poll: the IPs of the bulbs that answered the
   * liveness probe, and of those among them whose cached flag is on.
   */
  method PollAll(devices: seq<Device>, replies: seq<Option<Datagram>>) returns (availableIps: seq<string>, onIps: seq<string>)
    requires |replies| == |devices|
    modifies devices
    ensures |availableIps| > 0 <==> exists k :: 0 <= k < |replies| && replies[k].Some?
    ensures |onIps| > 0 <==> exists k :: 0 <= k < |replies| && replies[k].Some? && devices[k].state
    ensures forall ip :: ip in onIps ==> ip in availableIps
    ensures forall k :: 0 <= k < |devices| ==> devices[k].state == old(devices[k].state)
  {
    availableIps := [];
    onIps := [];
    for i := 0 to |devices|
      invariant |availableIps| > 0 <==> exists k :: 0 <= k < i && replies[k].Some?
      invariant |onIps| > 0 <==> exists k :: 0 <= k < i && replies[k].Some? && devices[k].state
      invariant forall ip :: ip in onIps ==> ip in availableIps
      invariant forall k :: 0 <= k < |devices| ==> devices[k].state == old(devices[k].state)
    {
      var report := devices[i].GetState(replies[i]);
      if report.available {
        availableIps := availableIps + [devices[i].ip];
        if report.state == StateOn {
          onIps := onIps + [devices[i].ip];
        }
      }
    }
  }

  // ----- The single-bulb entity -----

  class LightEntity {
    const device: Device
    var state: string
    var available: bool
    var wasUnavailable: bool
    var brightness: Option<int>
    var colorTempKelvin: Option<int>
    var rgb: Option<Rgb>
    var mode: ColorMode
    var effect: Option<string>
    var saved: Saved
    var translations: map<string, string>

    /** A new entity is unavailable, with the default settings also as its saved state. */
    constructor (ip: string, manager: StateManager)
      ensures fresh(device) && device.ip == ip && device.manager == manager
      ensures !device.state && device.sent == []
      ensures state == StateUnavailable && !available && wasUnavailable
      ensures Attrs() == Attributes(Some(BaseBrightness), Some(BaseColorK), Some(BaseColorRgb), None, RgbMode)
      ensures saved == Saved(StateUnavailable, Some(BaseBrightness), None, Some(BaseColorK), Some(BaseColorRgb))
      ensures translations == map[]
    {
      device := new Device(ip, manager);
      state := StateUnavailable;
      available := false;
      wasUnavailable := true;
      brightness := Some(BaseBrightness);
      colorTempKelvin := Some(BaseColorK);
      rgb := Some(BaseColorRgb);
      mode := RgbMode;
      effect := None;
      saved := Saved(StateUnavailable, Some(BaseBrightness), None, Some(BaseColorK), Some(BaseColorRgb));
      translations := map[];
    }

    function Attrs(): Attributes
      reads this
    {
      Attributes(brightness, colorTempKelvin, rgb, effect, mode)
    }

    method SetAttrs(a: Attributes)
      modifies this`brightness, this`colorTempKelvin, this`rgb, this`effect, this`mode
      ensures Attrs() == a
    {
      brightness, colorTempKelvin, rgb, effect, mode := a.brightness, a.colorTempKelvin, a.rgb, a.effect, a.mode;
    }

    /** The values `__backup_online_states` saves. */
    function Online(): Saved
      reads this
    {
      Saved(state, brightness, effect, colorTempKelvin, rgb)
    }

    function IsOn(): (on: bool)
      reads this
      ensures on <==> state == StateOn
    {
      IsOnState(state)
    }

    /** The temperature shown: only in colour-temperature mode. */
    function ShownColorTempKelvin(): Option<int>
      reads this
    {
      if mode == ColorTempMode then colorTempKelvin else None
    }

    /** The colour shown: only in RGB mode. */
    function ShownRgbColor(): Option<Rgb>
      reads this
    {
      if mode == RgbMode then rgb else None
    }

    /** At most one of the temperature and the colour is shown, and which one the mode decides. */
    lemma ShowsOneColor()
      ensures ShownColorTempKelvin().None? || ShownRgbColor().None?
      ensures mode == RgbMode ==> ShownRgbColor() == rgb
      ensures mode == ColorTempMode ==> ShownColorTempKelvin() == colorTempKelvin
    {
    }

    method BackupOnlineStates()
      modifies this`saved
      ensures saved == Online()
    {
      saved := Saved(state, brightness, effect, colorTempKelvin, rgb);
    }

    method RestoreOnlineStates()
      modifies this`state, this`brightness, this`effect, this`colorTempKelvin, this`rgb
      ensures Online() == saved
      ensures mode == old(mode)
    {
      state := saved.state;
      brightness := saved.brightness;
      effect := saved.effect;
      colorTempKelvin := saved.colorTempKelvin;
      rgb := saved.rgb;
    }

    /**
     * `async_added_to_hass`: takes over a restored state (missing attributes
     * get their defaults), saves it as the online state, loads the
     * translations and subscribes to the bulb's state changes.
     */
    method AddedToHass(last: Option<LastState>, loaded: map<string, string>, cb: CallbackId)
      modifies this, device.manager
      ensures last.Some? ==> Online() == Saved(last.value.state, Get(last.value.brightness, Some(255)),
        Get(last.value.effect, None), Get(last.value.colorTempKelvin, None), Get(last.value.rgb, None))
      ensures last.None? ==> Online() == old(Online())
      ensures saved == Online()
      ensures translations == loaded
      ensures mode == old(mode) && available == old(available) && wasUnavailable == old(wasUnavailable)
      ensures device.manager.subscribers == Registered(old(device.manager.subscribers), device.ip, cb)
      ensures device.manager.states == old(device.manager.states)
    {
      if last.Some? {
        state := last.value.state;
        brightness := Get(last.value.brightness, Some(255));
        effect := Get(last.value.effect, None);
        colorTempKelvin := Get(last.value.colorTempKelvin, None);
        rgb := Get(last.value.rgb, None);
      }
      BackupOnlineStates();
      translations := loaded;
      device.manager.RegisterLight(device.ip, cb);
    }

    /** `async_will_remove_from_hass`: unsubscribes. */
    method WillRemoveFromHass(cb: CallbackId)
      modifies device.manager
      ensures device.manager.subscribers == Unregistered(old(device.manager.subscribers), device.ip, cb)
      ensures device.manager.states == old(device.manager.states)
    {
      device.manager.UnregisterLight(device.ip, cb);
    }

    /** `_handle_state_update`: takes over every field of a published state. */
    method HandleStateUpdate(published: LightState)
      modifies this`state, this`brightness, this`colorTempKelvin, this`rgb, this`effect
      ensures state == published.state && brightness == Some(published.brightness)
      ensures colorTempKelvin == Some(published.colorTemp) && rgb == Some(published.rgb)
      ensures effect == published.effect
    {
      state := published.state;
      brightness := Some(published.brightness);
      colorTempKelvin := Some(published.colorTemp);
      rgb := Some(published.rgb);
      effect := published.effect;
    }

    /**
     * `turn_on`: the mode becomes RGB in any case; only from a state other
     * than on, unavailable and unknown is the bulb switched on, and only if
     * that went through are the settings sent. An exception from `set_color`
     * ends the call and is returned.
     */
    method TurnOn(args: TurnOnArgs, net: Network) returns (raised: Option<ForgeError>)
      modifies this`state, this`brightness, this`colorTempKelvin, this`rgb, this`effect, this`mode, device, device.manager
      ensures var acted := TurnOnActs(old(state)) && net.turnOn;
        var raises := acted && ColorRaises(args);
        && raised == (if raises then Some(ColorForge(args.rgb.value).error) else None)
        && state == (if acted then StateOn else old(state))
        && Attrs() == if acted then Applied(old(Attrs()).(mode := RgbMode), args, translations, raises)
                      else old(Attrs()).(mode := RgbMode)
      ensures TurnOnActs(old(state)) ==> device.state == (old(device.state) || net.turnOn)
      ensures TurnOnActs(old(state)) ==>
        device.sent == old(device.sent) + [PowerPacket(true)] + (if net.turnOn then SettingsPackets(args, translations) else [])
      ensures !TurnOnActs(old(state)) ==> unchanged(device) && unchanged(device.manager)
    {
      mode := RgbMode;
      raised := None;
      if !(state in [StateOn, StateUnavailable, StateUnknown]) {
        var switched := device.TurnOn(net.turnOn);
        if switched {
          state := StateOn;
          var b;
          b, raised := SendSettings(device, Attrs(), args, translations, net);
          SetAttrs(b);
        }
      }
    }

    /** `turn_off`: the state becomes off only when the bulb acknowledged. */
    method TurnOff(delivered: bool)
      modifies this`state, device, device.manager
      ensures state == if delivered then StateOff else old(state)
      ensures device.state == (old(device.state) && !delivered)
      ensures device.sent == old(device.sent) + [PowerPacket(false)]
    {
      var ok := device.TurnOff(delivered);
      if ok {
        state := StateOff;
      }
    }

    /**
     * `async_get_light_states`, the periodic poll. A responding bulb makes the
     * entity available for good (nothing here ever makes it unavailable
     * again). On the poll that finds it back after being unavailable the saved
     * state is put back: a saved "off" (or any other non-on string) is sent as
     * `turn_off`, while a saved "on" goes through `turn_on` from the state
     * "on", which `turn_on` ignores, so nothing is sent to the bulb.
     */
    method GetLightStates(reply: Option<Datagram>, offDelivered: bool)
      modifies this, device, device.manager
      ensures available == (old(available) || reply.Some?)
      ensures wasUnavailable == !available
      ensures saved == old(saved) && translations == old(translations)
      ensures old(wasUnavailable) && available && old(saved).state == StateOn ==>
        && Online() == old(saved) && mode == RgbMode
        && device.sent == old(device.sent) && device.state == old(device.state)
      ensures old(wasUnavailable) && available && old(saved).state != StateOn ==>
        && Online() == old(saved).(state := if offDelivered then StateOff else old(saved).state)
        && mode == old(mode)
        && device.sent == old(device.sent) + [PowerPacket(false)]
        && device.state == (old(device.state) && !offDelivered)
      ensures !(old(wasUnavailable) && available) ==>
        && state == (if reply.Some? && old(device.state) then StateOn else old(state))
        && Attrs() == old(Attrs())
        && device.sent == old(device.sent) && device.state == old(device.state)
    {
      var report := device.GetState(reply);
      if report.available {
        available := true;
        if report.state == StateOn {
          state := StateOn;
        }
      }
      if wasUnavailable && available {
        RestoreOnlineStates();
        if IsOn() {
          // Nothing is exchanged here: `turn_on` ignores the state "on".
          var raised := TurnOn(RestoreArgs(saved), Network(false, false, false, false, false));
        } else {
          TurnOff(offDelivered);
        }
      }
      wasUnavailable := !available;
    }
  }

  // ----- The group entity -----

  class GroupEntity {
    const ips: seq<string>
    const devices: seq<Device>
    const manager: StateManager
    var state: string
    var available: bool
    var wasUnavailable: bool
    var brightness: Option<int>
    var colorTempKelvin: Option<int>
    var rgb: Option<Rgb>
    var mode: ColorMode
    var effect: Option<string>
    var saved: Saved
    var translations: map<string, string>

    /** One bulb per distinct IP, in first-occurrence order, all sharing the registry. */
    ghost predicate Valid() {
      && |devices| == |Dedup(ips)|
      && (forall i :: 0 <= i < |devices| ==> devices[i].ip == Dedup(ips)[i])
      && Shared()
    }

    /** The part of `Valid` the operations rely on: distinct bulbs, one registry. */
    ghost predicate Shared() {
      && (forall i :: 0 <= i < |devices| ==> devices[i].manager == manager)
      && (forall i, j :: 0 <= i < j < |devices| ==> devices[i] != devices[j])
    }

    constructor (ips: seq<string>, manager: StateManager)
      ensures this.ips == ips && this.manager == manager && Valid()
      ensures forall i :: 0 <= i < |devices| ==> fresh(devices[i]) && !devices[i].state && devices[i].sent == []
      ensures state == StateUnavailable && !available && wasUnavailable
      ensures Attrs() == Attributes(Some(BaseBrightness), Some(BaseColorK), Some(BaseColorRgb), None, RgbMode)
      ensures saved == Saved(StateUnavailable, Some(BaseBrightness), None, Some(BaseColorK), Some(BaseColorRgb))
      ensures translations == map[]
    {
      var unique := Dedup(ips);
      var built: seq<Device> := [];
      for i := 0 to |unique|
        invariant |built| == i
        invariant forall k :: 0 <= k < i ==> fresh(built[k]) && built[k].ip == unique[k] && built[k].manager == manager
        invariant forall k :: 0 <= k < i ==> !built[k].state && built[k].sent == []
        invariant forall k, l :: 0 <= k < l < i ==> built[k] != built[l]
      {
        var d := new Device(unique[i], manager);
        built := built + [d];
      }
      this.ips := ips;
      this.manager := manager;
      devices := built;
      state := StateUnavailable;
      available := false;
      wasUnavailable := true;
      brightness := Some(BaseBrightness);
      colorTempKelvin := Some(BaseColorK);
      rgb := Some(BaseColorRgb);
      mode := RgbMode;
      effect := None;
      saved := Saved(StateUnavailable, Some(BaseBrightness), None, Some(BaseColorK), Some(BaseColorRgb));
      translations := map[];
    }

    function Attrs(): Attributes
      reads this
    {
      Attributes(brightness, colorTempKelvin, rgb, effect, mode)
    }

    method SetAttrs(a: Attributes)
      modifies this`brightness, this`colorTempKelvin, this`rgb, this`effect, this`mode
      ensures Attrs() == a
    {
      brightness, colorTempKelvin, rgb, effect, mode := a.brightness, a.colorTempKelvin, a.rgb, a.effect, a.mode;
    }

    function Online(): Saved
      reads this
    {
      Saved(state, brightness, effect, colorTempKelvin, rgb)
    }

    function IsOn(): (on: bool)
      reads this
      ensures on <==> state == StateOn
    {
      IsOnState(state)
    }

    method BackupOnlineStates()
      modifies this`saved
      ensures saved == Online()
    {
      saved := Saved(state, brightness, effect, colorTempKelvin, rgb);
    }

    method RestoreOnlineStates()
      modifies this`state, this`brightness, this`effect, this`colorTempKelvin, this`rgb
      ensures Online() == saved
      ensures mode == old(mode)
    {
      state := saved.state;
      brightness := saved.brightness;
      effect := saved.effect;
      colorTempKelvin := saved.colorTempKelvin;
      rgb := saved.rgb;
    }

    /** `async_added_to_hass` of the group: as for one bulb, without subscribing to the registry. */
    method AddedToHass(last: Option<LastState>, loaded: map<string, string>)
      modifies this
      ensures last.Some? ==> Online() == Saved(last.value.state, Get(last.value.brightness, Some(255)),
        Get(last.value.effect, None), Get(last.value.colorTempKelvin, None), Get(last.value.rgb, None))
      ensures last.None? ==> Online() == old(Online())
      ensures saved == Online()
      ensures translations == loaded
      ensures mode == old(mode) && available == old(available) && wasUnavailable == old(wasUnavailable)
    {
      if last.Some? {
        state := last.value.state;
        brightness := Get(last.value.brightness, Some(255));
        effect := Get(last.value.effect, None);
        colorTempKelvin := Get(last.value.colorTempKelvin, None);
        rgb := Get(last.value.rgb, None);
      }
      BackupOnlineStates();
      translations := loaded;
    }

    /**
     * `turn_on` of the group. Each bulb is switched on whatever its cached
     * flag (the flag, a boolean, is compared with the string "on"); a bulb
     * that does not acknowledge is skipped and marks the call as failed; the
     * others receive the settings, which all leave the same attributes. The
     * group is on when every bulb acknowledged. An exception from
     * `set_color` ends the call at the first bulb that acknowledged.
     */
    method TurnOn(args: TurnOnArgs, nets: seq<Network>) returns (raised: Option<ForgeError>)
      requires Shared()
      requires |nets| == |devices|
      modifies this`state, this`brightness, this`colorTempKelvin, this`rgb, this`effect, this`mode, devices, manager
      ensures var anyOn := exists k :: 0 <= k < |nets| && nets[k].turnOn;
        var raises := anyOn && ColorRaises(args);
        && raised == (if raises then Some(ColorForge(args.rgb.value).error) else None)
        && state == (if !raises && forall k :: 0 <= k < |nets| ==> nets[k].turnOn then StateOn else old(state))
        && Attrs() == if anyOn then Applied(old(Attrs()), args, translations, raises) else old(Attrs())
      ensures raised.None? ==> forall k :: 0 <= k < |devices| ==> devices[k].state == (old(devices[k].state) || nets[k].turnOn)
    {
      var success, b;
      success, b, raised := SwitchOnAll(devices, manager, Attrs(), args, translations, nets);
      SetAttrs(b);
      if raised.None? && success {
        state := StateOn;
      }
    }

    /** `turn_off` of the group: every bulb is asked; the group is off when every bulb acknowledged. */
    method TurnOff(replies: seq<bool>)
      requires Shared()
      requires |replies| == |devices|
      modifies this`state, devices, manager
      ensures state == if forall k :: 0 <= k < |replies| ==> replies[k] then StateOff else old(state)
      ensures forall k :: 0 <= k < |devices| ==> devices[k].state == (old(devices[k].state) && !replies[k])
      ensures forall k :: 0 <= k < |devices| ==> devices[k].sent == old(devices[k].sent) + [PowerPacket(false)]
    {
      var success := SwitchOffAll(devices, manager, replies);
      if success {
        state := StateOff;
      }
    }

    /**
     * The second half of the group's poll, once availability is known: an
     * unavailable group reads "unavailable"; a group that stays available
     * reads "on" exactly when `someOn` and saves that; a group that comes
     * back restores its saved state and re-sends it when it is "on".
     */
    method Settle(someOn: bool, nets: seq<Network>) returns (raised: Option<ForgeError>)
      requires Shared()
      requires |nets| == |devices|
      modifies this, devices, manager
      ensures available == old(available) && translations == old(translations)
      ensures raised.None? ==> wasUnavailable == !available
      ensures raised.Some? ==> wasUnavailable == old(wasUnavailable)
      ensures !available ==> && raised.None? && state == StateUnavailable
                             && Attrs() == old(Attrs()) && saved == old(saved)
      ensures available && !old(wasUnavailable) ==>
        && raised.None? && state == (if someOn then StateOn else StateOff)
        && Attrs() == old(Attrs()) && saved == Online()
      ensures available && old(wasUnavailable) && old(saved).state != StateOn ==>
        && raised.None? && Online() == old(saved) && mode == old(mode) && saved == old(saved)
      ensures available && old(wasUnavailable) && old(saved).state == StateOn ==>
        var args := RestoreArgs(old(saved));
        var anyOn := exists k :: 0 <= k < |nets| && nets[k].turnOn;
        && raised == (if anyOn && ColorRaises(args) then Some(ColorForge(args.rgb.value).error) else None)
        && state == StateOn && saved == old(saved)
        && Attrs() == if anyOn then Applied(AttributesOf(old(saved), old(mode)), args, translations, ColorRaises(args))
                      else AttributesOf(old(saved), old(mode))
    {
      raised := None;
      if !available {
        state := StateUnavailable;
        wasUnavailable := true;
      } else {
        if wasUnavailable {
          RestoreOnlineStates();
          if IsOn() {
            raised := TurnOn(RestoreArgs(saved), nets);
            if raised.Some? {
              return;
            }
          }
        } else {
          state := if someOn then StateOn else StateOff;
          BackupOnlineStates();
        }
      }
      wasUnavailable := !available;
    }

    /**
     * `async_get_light_states` of the group. Availability is recomputed
     * inside the loop over the bulbs, so a group without bulbs keeps the old
     * value. An unavailable group reads "unavailable". A group that stays
     * available reads "on" when some responding bulb is on and "off"
     * otherwise, and saves that as its online state. A group that comes back
     * puts its saved state back and, when that is "on", re-sends it with
     * `turn_on`; an exception there leaves `wasUnavailable` as it was.
     * The part after the loop over the bulbs is `Settle`.
     */
    method GetLightStates(replies: seq<Option<Datagram>>, nets: seq<Network>) returns (raised: Option<ForgeError>)
      requires Shared()
      requires |replies| == |devices| && |nets| == |devices|
      modifies this, devices, manager
      ensures |devices| > 0 ==> available == exists k :: 0 <= k < |replies| && replies[k].Some?
      ensures |devices| == 0 ==> available == old(available)
      ensures raised.None? ==> wasUnavailable == !available
      ensures raised.Some? ==> wasUnavailable == old(wasUnavailable)
      ensures !available ==> && raised.None? && state == StateUnavailable
                             && Attrs() == old(Attrs()) && saved == old(saved)
      ensures available && !old(wasUnavailable) ==>
        && raised.None?
        && state == (if exists k :: 0 <= k < |replies| && replies[k].Some? && old(devices[k].state) then StateOn else StateOff)
        && Attrs() == old(Attrs()) && saved == Online()
      ensures available && old(wasUnavailable) && old(saved).state != StateOn ==>
        && raised.None? && Online() == old(saved) && mode == old(mode) && saved == old(saved)
      ensures available && old(wasUnavailable) && old(saved).state == StateOn ==>
        var args := RestoreArgs(old(saved));
        var anyOn := exists k :: 0 <= k < |nets| && nets[k].turnOn;
        && raised == (if anyOn && ColorRaises(args) then Some(ColorForge(args.rgb.value).error) else None)
        && state == StateOn && saved == old(saved)
        && Attrs() == if anyOn then Applied(AttributesOf(old(saved), old(mode)), args, translations, ColorRaises(args))
                      else AttributesOf(old(saved), old(mode))
      ensures translations == old(translations)
    {
      var availableIps, onIps := PollAll(devices, replies);
      if |devices| > 0 {
        available := |availableIps| > 0;
      }
      raised := Settle(|onIps| > 0, nets);
    }
  }
}
