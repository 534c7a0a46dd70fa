/**
 * The bulb's built-in effects: a fixed table from effect id to the one-byte
 * code sent with the effect instruction, and the translation key of each.
 */
module Effects {
  import opened Constants

  datatype LightEffect = LightEffect(id: string, instruction: int)

  const KeyPrefix: string := "component." + Domain + ".entity.light.effect.state."

  /** The translation key of an effect: a fixed prefix followed by its id. */
  function DescriptionKey(e: LightEffect): (k: string)
    ensures |k| == |KeyPrefix| + |e.id|
    ensures k[..|KeyPrefix|] == KeyPrefix && k[|KeyPrefix|..] == e.id
  {
    "component." + Domain + ".entity.light.effect.state." + e.id
  }

  /** The fixed prefix is the integration's own namespace for effect states. */
  lemma KeyPrefixValue()
    ensures KeyPrefix == "component.ihomma_sml.entity.light.effect.state."
  {
  }

  /** Two effects with different ids never share a translation key. */
  lemma DescriptionKeyInjective(a: LightEffect, b: LightEffect)
    requires a.id != b.id
    ensures DescriptionKey(a) != DescriptionKey(b)
  {
  }

  /** The `AVAILABLE_EFFECTS` dictionary, as its (key, effect) entries in insertion order. */
  const AvailableEffects: seq<(string, LightEffect)> := [
    ("strong_white", LightEffect("strong_white", 0x0)),
    ("candlelight", LightEffect("candlelight", 0x1)),
    ("morning_light", LightEffect("morning_light", 0x2)),
    ("nature_light", LightEffect("nature_light", 0x3)),
    ("snow_light", LightEffect("snow_light", 0x4)),
    ("squirrel_light", LightEffect("squirrel_light", 0x5)),
    ("coffee_light", LightEffect("coffee_light", 0x6)),
    ("desk_light", LightEffect("desk_light", 0x7)),
    ("hipster", LightEffect("hipster", 0x8)),
    ("yellow_light", LightEffect("yellow_light", 0x9)),
    ("slow_colors", LightEffect("slow_colors", 0xB)),
    ("slow_morning", LightEffect("slow_morning", 0xC)),
    ("circle", LightEffect("circle", 0xD)),
    ("party", LightEffect("party", 0xE)),
    ("romantic", LightEffect("romantic", 0xF)),
    ("smooth_yellow", LightEffect("smooth_yellow", 0x10)),
    ("blue_wave", LightEffect("blue_wave", 0x11)),
    ("strong_green", LightEffect("strong_green", 0x12)),
    ("white_yellow", LightEffect("white_yellow", 0x13))
  ]

  /** `AVAILABLE_EFFECTS.values()`, in the dictionary's order. */
  function EffectValues(): (values: seq<LightEffect>)
    ensures |values| == |AvailableEffects|
    ensures forall i :: 0 <= i < |values| ==> values[i] == AvailableEffects[i].1
  {
    seq(|AvailableEffects|, i requires 0 <= i < |AvailableEffects| => AvailableEffects[i].1)
  }

  /**
   * The table has 19 entries, each keyed by its own id; the codes are
   * pairwise distinct and lie in 0x0..0x13, with 0xA unused.
   */
  lemma EffectTableShape()
    ensures |AvailableEffects| == 19
    ensures forall i :: 0 <= i < |AvailableEffects| ==> AvailableEffects[i].0 == AvailableEffects[i].1.id
    ensures forall i :: 0 <= i < |AvailableEffects| ==>
      0x0 <= AvailableEffects[i].1.instruction <= 0x13 && AvailableEffects[i].1.instruction != 0xA
    ensures forall i, j :: 0 <= i < j < |AvailableEffects| ==>
      AvailableEffects[i].1.instruction != AvailableEffects[j].1.instruction
    ensures forall i, j :: 0 <= i < j < |AvailableEffects| ==> AvailableEffects[i].0 != AvailableEffects[j].0
  {
  }
}
