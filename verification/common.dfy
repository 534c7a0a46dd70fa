/**
 * Values shared by the device client, the state registry and the light
 * entities: colours, Home Assistant's state strings and the two state
 * dictionaries the device hands out.
 */
module Common {
  import opened Wrappers

  /** Home Assistant's state strings (homeassistant.const). */
  const StateOn: string := "on"
  const StateOff: string := "off"
  const StateUnavailable: string := "unavailable"
  const StateUnknown: string := "unknown"

  /**
   * Python keeps a colour either as a tuple or as a list; the two never
   * compare equal, which decides the terminal byte of a colour packet.
   */
  datatype Container = Tuple | List

  datatype Rgb = Rgb(container: Container, r: int, g: int, b: int)

  /** The dictionary a device passes to the registry after a successful command. */
  datatype LightState = LightState(
    state: string,
    brightness: int,
    colorTemp: int,
    rgb: Rgb,
    effect: Option<string>)

  /** The dictionary `get_state` returns: a fresh liveness answer plus the cached fields. */
  datatype StateReport = StateReport(
    available: bool,
    state: string,
    brightness: int,
    colorTemp: int,
    rgb: Rgb,
    effect: Option<string>)
}
