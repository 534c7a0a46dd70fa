# iHomma SML light driver — a Dafny model

This project models the core of the `ihomma_sml` Home Assistant integration,
which drives iHomma SmartLight bulbs over the local network. The model has
five parts.

- **The instruction codec** (`codec.dfy`). A command goes out as
  `FE EF <length> <instruction> <write switch> <data…> <padding> [<terminal>]`.
  The padding byte makes the packet's byte sum land on one of the allowed
  packet sizes. `Forge` states the outcome. `ForgeInstruction` computes it
  the way `__ForgeInstruction` does: a summing loop, then a scan over the
  allow-list with `continue`. When no size fits, the source lowers the
  length byte, appends the terminal and calls `.hex()` on a Python list,
  which raises. The model returns that as the error `ListHasNoHex`. The
  two clamp-and-rescale converters onto the bulb's 0..200 scale are here
  too.
- **The device client** (`device.dfy`). One `Device` object per bulb. It
  caches on/off, brightness, temperature, colour and effect, and publishes
  each change to the shared registry. TCP commands are recorded in a ghost
  transcript `sent`, so each command's contract names the exact packet it
  sends.
- **The subscriber registry** (`state_manager.dfy`). The singleton
  `StateManager` maps each IP to its subscribed callbacks and to the last
  published state.
- **The effect table** (`effects.dfy`). Nineteen effects, each with a
  one-byte code and a translation key.
- **The light entities** (`light.dfy`). The single-bulb entity and the group
  entity: command gating in `turn_on`/`turn_off`, the availability
  transitions of the periodic poll, backup and restore of the online state,
  effect lookup by display name, and the group's aggregation over its bulbs.

The network is a parameter throughout:

- A TCP exchange is `delivered: bool`. The transport then returns Python's
  `True` or `False`, never `None`.
- A UDP liveness probe is `reply: Option<Datagram>`.
- A `turn_on` takes one `Network` record per bulb. It says which of that
  bulb's exchanges go through: power, brightness, temperature, colour and
  effect.

Translations and Home Assistant's restored state are also parameters.

## Where the code departs from its evident intent

The model follows the code in each of these cases.

- `__ForgeInstruction` is annotated `-> bytes`
  (`custom_components/ihomma_sml/device.py:117`), and its no-fit fallback
  is evidently meant to return a packet anyway. In the code, that fallback
  raises: `.hex()` is called on a list. `bytes()` also raises on a value
  outside 0..255. `Codec.FallbackRaises` and `Codec.ToBytes` model both.
- `set_brightness`, `set_temperature`, `set_color` and `set_effect` each
  have a `return False` branch after `if result is not None`
  (for example `device.py:224-228`), so a failed exchange is evidently
  meant to leave the cache alone and return `False`. The TCP helper
  returns `False` on failure, never `None`, so that branch is never taken:
  these commands always store the raw argument, publish it and return
  `True`. Only `turn_on`/`turn_off` test truthiness.
- `set_color` is annotated to take a `tuple[int, int, int]` (`device.py:253`)
  and logs "Using final byte 94 for primary color" (`device.py:261`), so a
  pure primary is evidently meant to get the terminal byte 94. In the code,
  the comparison is against the lists `[255,0,0]`, `[0,255,0]` and
  `[0,0,255]`, and a tuple never equals a list. A tuple colour therefore
  never gets the terminal. A primary passed as a list gets it, but its base
  sum is then 1011, which no allowed size fits, so the call raises
  (`DeviceClient.PrimaryListColorRaises`). `Rgb` carries whether Python
  holds the colour as a tuple or a list.

## Model

| member | source | states |
|---|---|---|
| Constants.PacketSizesAscending | custom_components/ihomma_sml/const.py:16 | the allow-list of packet sizes is strictly ascending, which the forge's scan relies on |
| Constants.PacketSizeGaps | custom_components/ihomma_sml/const.py:16 | there are seven sizes, and consecutive sizes differ by 256, 1, 1, 256, 256 and 4155 |
| Constants.DefaultsInRange | custom_components/ihomma_sml/const.py:23-27 | the Kelvin range is non-empty; the default brightness, temperature and colour lie in their ranges |
| Effects.DescriptionKey | custom_components/ihomma_sml/ihomma_effects.py:17-20 | the translation key is the fixed namespace prefix followed by exactly the effect's id |
| Effects.KeyPrefixValue | custom_components/ihomma_sml/ihomma_effects.py:17-20 | the prefix is `component.ihomma_sml.entity.light.effect.state.`, built from the integration's domain |
| Effects.DescriptionKeyInjective | custom_components/ihomma_sml/ihomma_effects.py:17-20 | effects with different ids never share a translation key |
| Effects.EffectValues | custom_components/ihomma_sml/ihomma_effects.py:22-99 | the table's values, one per entry, in the dictionary's order |
| Effects.EffectTableShape | custom_components/ihomma_sml/ihomma_effects.py:22-99 | 19 entries; each key equals its effect's id; keys and codes are pairwise distinct; codes lie in 0x0..0x13 without 0xA |
| StateManagement.Registered | custom_components/ihomma_sml/state_manager.py:19-23 | registering adds the IP as a key and the callback to that IP's set; every other IP keeps its set |
| StateManagement.Unregistered | custom_components/ihomma_sml/state_manager.py:25-28 | unregistering removes the callback from that IP's set only, and keeps every key, even one whose set empties |
| StateManagement.RegisterIdempotent | custom_components/ihomma_sml/state_manager.py:19-23 | registering the same callback twice equals registering it once |
| StateManagement.UnregisterAbsentIsNoOp | custom_components/ihomma_sml/state_manager.py:25-28 | unregistering a callback that is not subscribed, or at an unknown IP, changes nothing |
| StateManagement.RegisterThenUnregister | custom_components/ihomma_sml/state_manager.py:19-28 | register followed by unregister of a new callback restores the IP's subscribers, but leaves the IP as a key |
| StateManagement.StateManager.constructor | custom_components/ihomma_sml/state_manager.py:15-16 | a new registry has no states and no subscribers |
| StateManagement.StateManager.RegisterLight | custom_components/ihomma_sml/state_manager.py:19-23 | the subscriber map becomes `Registered(...)`; stored states are untouched |
| StateManagement.StateManager.UnregisterLight | custom_components/ihomma_sml/state_manager.py:25-28 | the subscriber map becomes `Unregistered(...)`; stored states are untouched |
| StateManagement.StateManager.UpdateState | custom_components/ihomma_sml/state_manager.py:30-35 | the IP's state is overwritten and every other IP's is kept; exactly that IP's subscribers are called, each once, with the new state, and none for an IP without subscribers |
| StateManagement.NotifyAll | custom_components/ihomma_sml/state_manager.py:33-35 | the loop calls every callback of the set exactly once, each with the given state |
| StateManagement.StateManagerClass.New | custom_components/ihomma_sml/state_manager.py:12-17 | the first construction creates an empty registry; every later one returns the same object, unchanged |
| StateManagement.StateManagerClass.NewTwice | custom_components/ihomma_sml/state_manager.py:12-17 | two constructions give one shared object, initialised only once |
| Codec.Forge | custom_components/ihomma_sml/device.py:117-146 | a returned packet is `6+len(data)` bytes long (+1 with a terminal); the list the fallback raises on is `6+len(data)` long: the prefix with the terminal appended |
| Codec.FirstFit | custom_components/ihomma_sml/device.py:129-135 | the index of the first allowed size at or above the base sum whose padding fits in a byte; none exactly when no size fits |
| Codec.ToBytes | custom_components/ihomma_sml/device.py:142 | `bytes(list)` gives the same values when all lie in 0..255, and raises otherwise |
| Codec.ForgeInstruction | custom_components/ihomma_sml/device.py:117-146 | the summing loop and the scan with `continue` produce exactly the outcome `Forge` describes, including the raising fallback |
| Codec.PrefixSum | custom_components/ihomma_sml/device.py:121-128 | the running sum of the prefix is header, length, instruction, write switch and data added up |
| Codec.ForgedPacketLayout | custom_components/ihomma_sml/device.py:121-142 | a returned packet is `FE EF`, then the length `len(data)+3` (+1 with a terminal), instruction, write switch and data in order, and ends with the terminal; its length is `6+len(data)` (+1 with a terminal) |
| Codec.OnlyFirstCandidateFits | custom_components/ihomma_sml/device.py:129-136 | every size before the chosen one is below the base sum, because the sizes ascend |
| Codec.ForgedPadding | custom_components/ihomma_sml/device.py:125-136 | the padding byte is the first size at or above the base sum, minus that sum (+1 with a terminal), and lies in 0..255 |
| Codec.ForgedChecksum | custom_components/ihomma_sml/device.py:131-142 | a returned packet's bytes add up to the chosen size (+1 with a terminal); without a terminal the sum is an allowed size |
| Codec.FallbackRaises | custom_components/ihomma_sml/device.py:129-146 | the forge raises from the fallback exactly when no size fits; the list it raised on has the length lowered by one and the terminal in place of the padding |
| Codec.OversizedRaises | custom_components/ihomma_sml/device.py:129-146 | a base sum above 5677 always takes the raising fallback |
| Codec.OneBytePaddingWithoutTerminal | custom_components/ihomma_sml/const.py:16 | without a terminal, every base sum in 497..1522 finds a size |
| Codec.TerminalGapSums | custom_components/ihomma_sml/const.py:16 | with a terminal, the base sums 753, 1011 and 1267 find no size |
| Codec.ConvertBrightness | custom_components/ihomma_sml/device.py:206-214 | the converted brightness lies in 0..200 |
| Codec.ConvertTempKelvin | custom_components/ihomma_sml/device.py:230-239 | the converted temperature lies in 0..200 |
| Codec.BrightnessProperties | custom_components/ihomma_sml/device.py:206-214 | brightness clamps first (0 and below give 0, 255 and above give the value of 255) and never decreases |
| Codec.KelvinProperties | custom_components/ihomma_sml/device.py:230-239 | 2700 K and below give 200, 6500 K and above give 0, in between `200 - (v-2700)*200 div 3800`, and the result never increases |
| DeviceClient.PowerPackets | custom_components/ihomma_sml/device.py:148-157 | the on and off commands always forge, to `FE EF 04 A3 01 11 4A` and `FE EF 04 A3 01 12 49` |
| DeviceClient.BrightnessPacketForges | custom_components/ihomma_sml/device.py:216-222 | every brightness forges, padded to 752 or to 1008 |
| DeviceClient.TemperaturePacketForges | custom_components/ihomma_sml/device.py:241-245 | every temperature forges, with padding 255 minus the converted value, and then the terminal 94 |
| DeviceClient.TupleColorForges | custom_components/ihomma_sml/device.py:253-262 | a tuple colour never takes the terminal; with components in 0..255 it forges to a 9-byte packet carrying the three components |
| DeviceClient.PrimaryListColorRaises | custom_components/ihomma_sml/device.py:253-262 | a pure primary given as a list takes terminal 94 and then raises from the fallback |
| DeviceClient.ColorTerminal | custom_components/ihomma_sml/device.py:258-261 | the terminal is 0 or 94; a colour held as a tuple never takes 94; one that takes it has components adding up to 255 |
| DeviceClient.EffectPacketsForge | custom_components/ihomma_sml/device.py:271-283 | every code of the table lies in 0..89 and forges to `FE EF 04 A5 01 <code> <89-code>` |
| DeviceClient.DeviceKelvinLimits | custom_components/ihomma_sml/device.py:31-32 | the device's hard-coded Kelvin limits equal the integration's |
| DeviceClient.Device.constructor | custom_components/ihomma_sml/device.py:21-35 | a new device is unavailable and off, holds the default values, and has sent nothing |
| DeviceClient.Device.SendUdp | custom_components/ihomma_sml/device.py:73-89 | returns the reply, or `None`, and records whether one came back |
| DeviceClient.Device.SendTcp | custom_components/ihomma_sml/device.py:91-115 | always returns `True` or `False`, never `None`; on failure the device becomes unavailable; the packet is sent |
| DeviceClient.Device.Available | custom_components/ihomma_sml/device.py:47-52 | availability is "a liveness reply arrived", and it is stored |
| DeviceClient.Device.GetState | custom_components/ihomma_sml/device.py:159-171 | reports the liveness answer with the cached fields unchanged, and does not write `available` |
| DeviceClient.Device.NotifyStateChange | custom_components/ihomma_sml/device.py:173-182 | the registry's entry for this IP becomes the device's current fields |
| DeviceClient.Device.TurnOnOff | custom_components/ihomma_sml/device.py:148-157 | sends the power packet and returns the transport's result |
| DeviceClient.Device.TurnOn | custom_components/ihomma_sml/device.py:184-193 | returns true and sets the on-flag and publishes only when the exchange went through; otherwise the flag is kept and the device becomes unavailable; no other cached field changes |
| DeviceClient.Device.TurnOff | custom_components/ihomma_sml/device.py:195-204 | as `TurnOn`, clearing the on-flag |
| DeviceClient.Device.SetBrightness | custom_components/ihomma_sml/device.py:216-228 | always returns true and stores and publishes the raw value, whether or not the exchange went through; sends the converted value's packet |
| DeviceClient.Device.SetTemperature | custom_components/ihomma_sml/device.py:241-251 | always returns true and stores and publishes the raw value; sends the converted value with terminal 94 |
| DeviceClient.Device.SetColor | custom_components/ihomma_sml/device.py:253-269 | raises exactly when the forge does, and then nothing changes; otherwise sends the forged packet, stores and publishes the colour and returns true |
| DeviceClient.Device.SetEffect | custom_components/ihomma_sml/device.py:271-283 | as `SetColor`, for an effect code and the effect's name |
| Light.IsOnExactlyOn | custom_components/ihomma_sml/light.py:217-221 | `is_on` holds exactly for the state "on"; unknown and unavailable read as off |
| Light.ColorRaisesExactlyForListPrimaries | custom_components/ihomma_sml/device.py:253-262 | with components in 0..255, `set_color` raises exactly for a pure primary given as a list |
| Light.EffectList | custom_components/ihomma_sml/light.py:199-205 | one display name per table entry, in table order: its translation, or its id |
| Light.ListedNameFound | custom_components/ihomma_sml/light.py:199-205 | every name `effect_list` offers, passed back to `turn_on`, selects an effect shown under that name |
| Light.UntranslatedEffectList | custom_components/ihomma_sml/light.py:199-205 | without translations, `effect_list` is exactly the table's ids in order, with no name listed twice |
| Light.FirstNamed | custom_components/ihomma_sml/light.py:369-373 | the first position whose display name matches, with no match before it; none exactly when nothing matches |
| Light.FindEffect | custom_components/ihomma_sml/light.py:366-373 | finds an effect exactly when some effect is shown under the name; the one found is the first such in table order, is shown under the name, and has a code in 0x0..0x13 |
| Light.UntranslatedLookup | custom_components/ihomma_sml/light.py:369-373 | without translations, the lookup succeeds exactly for the table's ids and finds that very effect |
| Light.FoundEffectForges | custom_components/ihomma_sml/light.py:369-376 | a found effect's code always forges, to the effect packet, so `set_effect` never raises in `turn_on` |
| Light.Applied | custom_components/ihomma_sml/light.py:345-377 | when `set_color` raises, the colour and the effect stay as they were; with no arguments nothing changes; the mode changes only when a temperature, colour or effect was given |
| Light.AppliedIdempotent | custom_components/ihomma_sml/light.py:651-690 | applying the same arguments again leaves the attributes as they are, so every bulb of a group leaves the same attributes |
| Light.AppliedMode | custom_components/ihomma_sml/light.py:351-377 | the mode ends as colour temperature exactly when an in-range temperature was stored and neither a colour nor an effect was |
| Light.Dedup | custom_components/ihomma_sml/light.py:433-435 | the group's bulb IPs: pairwise distinct, exactly the configured IPs, no more of them |
| Light.DedupSnoc | custom_components/ihomma_sml/light.py:433-435 | keys keep their first occurrence: a further IP is appended only when it is new |
| Light.SendBrightness | custom_components/ihomma_sml/light.py:346-349 | a given brightness is always stored and its packet sent; without one nothing is sent and neither the bulb nor the registry changes; the bulb's on-flag is untouched |
| Light.SendTemperature | custom_components/ihomma_sml/light.py:352-357 | an in-range temperature is sent, stored and selects colour-temperature mode; one out of range, or none, sends nothing and changes neither the attributes, the bulb nor the registry |
| Light.SendColor | custom_components/ihomma_sml/light.py:360-364 | returns the forge's error exactly when `set_color` raises, and then nothing is sent and nothing changes; otherwise a given colour is sent and stored in RGB mode |
| Light.SendEffect | custom_components/ihomma_sml/light.py:366-377 | a name that matches an effect is sent as that effect's packet and stored in RGB mode; an unmatched name sends nothing and changes nothing |
| Light.SendColorThenEffect | custom_components/ihomma_sml/light.py:360-377 | the colour is sent, and the effect only when `set_color` did not raise; the attributes change as `Applied` says for a colour and an effect alone |
| Light.SettingsPacketsInOrder | custom_components/ihomma_sml/light.py:345-377 | the packets of the steps, one after another, are the settings packets in order |
| Light.SendSettings | custom_components/ihomma_sml/light.py:345-377 | the attributes become `Applied(...)`: brightness, temperature, colour and effect in that order, stopping at a `set_color` exception, which is returned; the bulb is sent exactly `SettingsPackets(...)`: brightness, an in-range temperature, then the colour and a found effect unless the colour raised |
| Light.SwitchOnBulb | custom_components/ihomma_sml/light.py:644-690 | a bulb is switched on; only if it acknowledged are the settings sent, leaving `Applied(...)`; a bulb that did not acknowledge is sent the power packet alone |
| Light.SwitchOffBulb | custom_components/ihomma_sml/light.py:702-704 | a bulb's off command: acknowledged exactly when delivered, flag cleared only then, off packet sent |
| Light.SwitchOnAll | custom_components/ihomma_sml/light.py:641-690 | every bulb is switched on; the attributes become `Applied(...)` if any bulb acknowledged; the first `set_color` exception ends the loop; success means every bulb acknowledged |
| Light.SwitchOffAll | custom_components/ihomma_sml/light.py:700-704 | every bulb is asked and sent the off packet; success exactly when all acknowledged |
| Light.PollAll | custom_components/ihomma_sml/light.py:583-593 | some bulb is listed as available exactly when some bulb replied, and some is listed as on exactly when some replying bulb's flag is on; on implies available; no flag changes |
| Light.LightEntity.constructor | custom_components/ihomma_sml/light.py:108-162 | a new entity is unavailable and was unavailable, holds the defaults, saves them, and owns a fresh device |
| Light.LightEntity.IsOn | custom_components/ihomma_sml/light.py:217-221 | on exactly when the state is "on" |
| Light.LightEntity.ShowsOneColor | custom_components/ihomma_sml/light.py:179-197 | the temperature is shown only in colour-temperature mode and the colour only in RGB mode, never both |
| Light.LightEntity.BackupOnlineStates | custom_components/ihomma_sml/light.py:388-396 | the saved state becomes the current state, brightness, effect, temperature and colour |
| Light.LightEntity.RestoreOnlineStates | custom_components/ihomma_sml/light.py:398-404 | the five fields become the saved ones; the mode is kept |
| Light.LightEntity.AddedToHass | custom_components/ihomma_sml/light.py:231-271 | a restored state is taken over, with brightness defaulting to 255 and the rest to `None`, and saved; translations are loaded; the entity subscribes to its bulb's IP |
| Light.LightEntity.WillRemoveFromHass | custom_components/ihomma_sml/light.py:273-278 | the entity unsubscribes from its bulb's IP |
| Light.LightEntity.HandleStateUpdate | custom_components/ihomma_sml/light.py:280-287 | every field of a published state is taken over |
| Light.LightEntity.TurnOn | custom_components/ihomma_sml/light.py:336-379 | the mode becomes RGB in any case; only from a state other than on, unavailable and unknown is the bulb switched on; only if that went through does the state become "on" and the settings apply; the bulb is sent the power-on packet and then, if acknowledged, exactly the settings packets; from a gated state the bulb and the registry are untouched |
| Light.LightEntity.TurnOff | custom_components/ihomma_sml/light.py:381-386 | the state becomes "off" only when the bulb acknowledged |
| Light.LightEntity.GetLightStates | custom_components/ihomma_sml/light.py:289-334 | a reply makes the entity available for good; afterwards `wasUnavailable` is the negation of `available`; coming back restores the saved state, re-sends "off" for a non-on state, and sends nothing for a saved "on" |
| Light.GroupEntity.constructor | custom_components/ihomma_sml/light.py:426-465 | one fresh bulb per distinct IP, in first-occurrence order, all sharing the registry; unavailable, with defaults saved |
| Light.GroupEntity.IsOn | custom_components/ihomma_sml/light.py:536-540 | on exactly when the state is "on" |
| Light.GroupEntity.BackupOnlineStates | custom_components/ihomma_sml/light.py:710-718 | the saved state becomes the current five fields |
| Light.GroupEntity.RestoreOnlineStates | custom_components/ihomma_sml/light.py:720-726 | the five fields become the saved ones; the mode is kept |
| Light.GroupEntity.AddedToHass | custom_components/ihomma_sml/light.py:542-577 | as for one bulb, without subscribing to the registry |
| Light.GroupEntity.TurnOn | custom_components/ihomma_sml/light.py:637-694 | every bulb is switched on regardless of its flag; the group becomes "on" exactly when all acknowledged and nothing raised; the attributes become `Applied(...)` once any bulb acknowledged; a colour that raises is returned |
| Light.GroupEntity.TurnOff | custom_components/ihomma_sml/light.py:696-708 | every bulb is asked; the group becomes "off" only when all acknowledged |
| Light.GroupEntity.Settle | custom_components/ihomma_sml/light.py:594-626 | an unavailable group reads "unavailable"; one staying available reads "on" exactly when some bulb is on, and saves that; one coming back restores its saved state and re-sends "on" through `turn_on` |
| Light.GroupEntity.GetLightStates | custom_components/ihomma_sml/light.py:579-627 | the group is available exactly when some bulb replied, and keeps its old value with no bulbs; then it settles as `Settle` says, with "on" when some replying bulb is on |

## Left out

- Sockets: socket options, `recv`/`recvfrom`, timeouts and the
  exception-swallowing `finally`. The TCP and UDP helpers become their
  result contracts, driven by parameters.
- The TCP helper's `wait_response` branch. No caller uses it, and it would
  index `PACKET_SIZES` with a string.
- `__parseMessage`, logging and the `DEBUG_NETWORK` branches. They do not
  change state.
- Codec.ConvertBrightness and Codec.ConvertTempKelvin work on integer input.
  The float expressions are written as floor division. Python's truncation
  of the float quotient agrees with floor division on integers in the
  clamped ranges. A non-integer argument is not modelled.
- Home Assistant plumbing: timers and `__update_timer_interval`, the
  `async_write_ha_state`/`update_state` scheduling, `PLATFORM_SCHEMA`,
  `async_setup_platform`, `should_poll`, `name`, `icon`, `unique_id` and
  `device_info`.
- Restored state and translations. They are parameters of `AddedToHass`;
  a callback is an opaque identifier.
- Calling a subscriber. The registry returns the list of calls it makes.
  The entity's reaction to one call is `HandleStateUpdate`.
- The group's `async_turn_on`. It is taken to run `turn_on` directly.
- Light.GroupEntity.constructor keeps one device per distinct IP. The
  source builds a device for every occurrence of a repeated IP and keeps
  the last. The devices built and then dropped cannot be observed.
- The `StateManager()` calls in each device and entity constructor. The
  single shared registry is passed in as a parameter instead.
  `StateManagerClass.New` models how that construction returns the one
  instance.
- `__init__.py`: integration setup and unload only.
- The tests: they are fixtures of the Home Assistant test harness.
- Concurrency: the registry and entities are modelled as used one call at
  a time.
- Light.GroupEntity.Settle does not state the packets a restore sends to
  the bulbs for a saved "on" state. It states only what the entity
  attributes become and whether a colour raised.
- Light.SwitchOnAll does not state the packets sent to the bulbs of a
  group: its loop invariants track only the bulbs' on-flags.
  `Light.SwitchOnBulb` states the power-on packet alone for a bulb that did
  not acknowledge, and only the single entity's `turn_on` states its
  bulb's whole transcript.
- Light.GroupEntity.TurnOn does not state the packets sent to its bulbs,
  since it takes them from `Light.SwitchOnAll`.
- Light.LightEntity.TurnOn leaves out the entity's own registry
  subscription (`light.py:265-268`). Each device command that publishes
  (`device.py:173-182`) calls the entity's `_handle_state_update`
  (`light.py:280-287`) during the call. That overwrites state, brightness,
  temperature, colour and effect with the bulb's cached values. The
  contract states the entity as the method's own assignments leave it.
- Light.LightEntity.TurnOff leaves out the same overwrite: a delivered
  `turn_off` publishes, and the entity then takes over the bulb's cached
  brightness, temperature, colour and effect.
- Light.LightEntity.GetLightStates leaves out the same overwrite. For
  example, after a restore whose `turn_off` went through, the source ends
  with the bulb's cached brightness (255 by default), not the saved one.
- The device's `is_on` property (`device.py:54-56`) is the `state` field
  of `DeviceClient.Device`; it has no separate member. The group compares
  that boolean with "on" (`light.py:644`), which is always false; the
  model keeps the outcome, that every bulb is switched on.
- Light.GroupEntity.TurnOn states the bulbs' flags only when no colour
  raised. On that path the loop stops early, and the model does not say
  which bulbs were reached.
