/**
 * Colour modes of an Amaran light (amaran_HA/light.py): the capability set
 * derived from a node's configuration at platform setup, and the narrowing
 * the light's constructor applies to it.
 */
module ColorModes {
  import opened Json

  datatype ColorMode = OnOff | Brightness | ColorTemp | Hs | Rgb

  /** The three modes that carry a colour value. */
  predicate IsColour(m: ColorMode)
  {
    m == ColorTemp || m == Hs || m == Rgb
  }

  /** Whether a set contains a colour-carrying mode. */
  predicate HasColour(modes: set<ColorMode>)
  {
    ColorTemp in modes || Hs in modes || Rgb in modes
  }

  /** `config.get(key, False)` read for its truthiness. */
  predicate Flag(config: Entries, key: string)
  {
    Truthy(Get(config, key, JBool(false)))
  }

  /** The mode set platform setup builds from a node configuration. */
  function InitialModes(config: Entries): (modes: set<ColorMode>)
    ensures OnOff in modes && Brightness in modes
    ensures ColorTemp in modes <==> Flag(config, "cct_support")
    ensures Hs in modes <==> Flag(config, "rgb_support") || Flag(config, "hsi_support")
    ensures Rgb in modes <==> Hs in modes
  {
    var modes := {OnOff, Brightness};
    var modes := if Flag(config, "cct_support") then modes + {ColorTemp} else modes;
    if Flag(config, "rgb_support") || Flag(config, "hsi_support") then modes + {Hs, Rgb} else modes
  }

  /**
   * The reference definition of the supported set the constructor keeps: the
   * single highest-priority mode present (ColorTemp, then Hs, then Rgb, then
   * Brightness), and never OnOff.
   */
  function SupportedModes(given: set<ColorMode>): (r: set<ColorMode>)
    ensures OnOff !in r
    ensures r <= given
    ensures |r| <= 1
    ensures r == {} <==> given <= {OnOff}
    ensures Brightness in r <==> Brightness in given && !HasColour(given)
    ensures ColorTemp in given ==> r == {ColorTemp}
    ensures Hs in r <==> Hs in given && ColorTemp !in given
    ensures Rgb in r <==> Rgb in given && ColorTemp !in given && Hs !in given
  {
    if ColorTemp in given then {ColorTemp}
    else if Hs in given then {Hs}
    else if Rgb in given then {Rgb}
    else if Brightness in given then {Brightness}
    else assert forall m :: m in given ==> m.OnOff?; {}
  }

  /** The mode a light starts in, chosen from its supported set. */
  function DefaultMode(supported: set<ColorMode>): (m: ColorMode)
    ensures m != OnOff
    ensures m in supported || (!HasColour(supported) && m == Brightness)
    ensures IsColour(m) <==> HasColour(supported)
  {
    if ColorTemp in supported then ColorTemp
    else if Hs in supported then Hs
    else if Rgb in supported then Rgb
    else Brightness
  }

  /**
   * For any light platform setup creates the supported set has exactly one
   * element: ColorTemp when the node supports colour temperature, else Hs
   * when it supports RGB or HSI, else Brightness. Rgb never wins, because
   * setup always adds Hs together with it.
   */
  lemma SetupModesSingle(config: Entries)
    ensures var r := SupportedModes(InitialModes(config));
      && |r| == 1
      && (Flag(config, "cct_support") ==> r == {ColorTemp})
      && (!Flag(config, "cct_support") && (Flag(config, "rgb_support") || Flag(config, "hsi_support")) ==> r == {Hs})
      && (!Flag(config, "cct_support") && !Flag(config, "rgb_support") && !Flag(config, "hsi_support") ==> r == {Brightness})
      && Rgb !in r
  {
  }
}
