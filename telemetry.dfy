/**
 * The telemetry side of an Amaran light (AmaranLight.async_update in
 * amaran_HA/light.py): the scaling between the controller's intensity
 * (0-1000) and the host's brightness (0-255), and the tolerant decoders of
 * the `data` field of the get_intensity, get_cct, get_hsi and get_rgb
 * replies. Each decoder is a reference function, with the method that
 * performs the source's scan over the payload proved equal to it.
 */
module Telemetry {
  import opened Wrappers
  import opened Json

  const FullBrightness: int := 255
  const FullIntensity: int := 1000

  /** Python's `int(a / d)` on integers: division that truncates toward zero. */
  function TruncDiv(a: int, d: int): int
    requires d > 0
  {
    if a >= 0 then a / d else -((-a) / d)
  }

  /** `int(intensity * 255 / 1000)`: the brightness a polled intensity stands for. */
  function IntensityToBrightness(v: int): (b: int)
    ensures 0 <= v ==> 0 <= b * FullIntensity <= v * FullBrightness < b * FullIntensity + FullIntensity
    ensures 0 <= v <= FullIntensity ==> 0 <= b <= FullBrightness
    ensures v < 0 ==> b <= 0
  {
    TruncDiv(v * FullBrightness, FullIntensity)
  }

  /** `int(brightness * 1000 / 255)`: the intensity sent for a brightness. */
  function BrightnessToIntensity(b: int): (v: int)
    ensures 0 <= b ==> 0 <= v * FullBrightness <= b * FullIntensity < v * FullBrightness + FullBrightness
    ensures 0 <= b <= FullBrightness ==> 0 <= v <= FullIntensity
    ensures b < 0 ==> v <= 0
  {
    TruncDiv(b * FullIntensity, FullBrightness)
  }

  /**
   * Sending a brightness and reading it back loses at most one step: both
   * conversions truncate, so the brightness a later poll reports is the one
   * sent or one less.
   */
  lemma BrightnessRoundTrip(b: int)
    requires 0 <= b <= FullBrightness
    ensures b - 1 <= IntensityToBrightness(BrightnessToIntensity(b)) <= b
  {
    var v := BrightnessToIntensity(b);
    var b' := IntensityToBrightness(v);
    assert v * 255 <= b * 1000 < v * 255 + 255;
    assert b' * 1000 <= v * 255 < b' * 1000 + 1000;
  }

  /** The loss is real: brightness 1 is sent as intensity 3, which reads back as brightness 0. */
  lemma BrightnessOneReadsBackZero()
    ensures BrightnessToIntensity(1) == 3
    ensures IntensityToBrightness(3) == 0
  {
  }

  /** Polling intensity 500 gives brightness 127 (truncation, not rounding). */
  lemma HalfIntensity()
    ensures IntensityToBrightness(500) == 127
  {
  }

  /** The first numeric value of a dict, in iteration order (`for value in d.values(): ... break`). */
  function FirstNumber(es: Entries): (r: Option<int>)
    ensures r.None? <==> forall i :: 0 <= i < |es| ==> !IsNumber(es[i].1)
    ensures r.Some? ==> exists i :: 0 <= i < |es| && IsNumber(es[i].1) && r.value == AsNumber(es[i].1)
                                   && forall j :: 0 <= j < i ==> !IsNumber(es[j].1)
    decreases |es|
  {
    if |es| == 0 then None
    else if IsNumber(es[0].1) then Some(AsNumber(es[0].1))
    else
      var r := FirstNumber(es[1..]);
      assert forall i :: 1 <= i < |es| ==> es[1..][i - 1] == es[i];
      r
  }

  /** The scan of a dict's values for the first number, as the source's loop does it. */
  method ScanNumber(es: Entries) returns (r: Option<int>)
    ensures r == FirstNumber(es)
  {
    var i := 0;
    while i < |es|
      invariant 0 <= i <= |es|
      invariant FirstNumber(es) == FirstNumber(es[i..])
    {
      var value := es[i].1;
      if IsNumber(value) {
        assert es[i..][0] == es[i];
        return Some(AsNumber(value));
      }
      assert es[i..][1..] == es[i + 1..];
      i := i + 1;
    }
    r := None;
  }

  /**
   * The intensity a get_intensity payload reports: a number as it is; for a
   * dict, `d.get('intensity', 0)` when that is a number (so a dict without the
   * key reports 0), otherwise the first numeric value; nothing otherwise.
   */
  function IntensityOf(data: Json): (r: Option<int>)
    ensures IsNumber(data) ==> r == Some(AsNumber(data))
    ensures data.JObj? && !HasKey(data.entries, "intensity") ==> r == Some(0)
    ensures data.JObj? && HasKey(data.entries, "intensity") && IsNumber(Lookup(data.entries, "intensity").value) ==>
              r == Some(AsNumber(Lookup(data.entries, "intensity").value))
    ensures data.JObj? && HasKey(data.entries, "intensity") && !IsNumber(Lookup(data.entries, "intensity").value) ==>
              r == FirstNumber(data.entries)
    ensures r.None? <==>
              && !IsNumber(data)
              && (data.JObj? ==> HasKey(data.entries, "intensity")
                                 && forall i :: 0 <= i < |data.entries| ==> !IsNumber(data.entries[i].1))
  {
    if IsNumber(data) then Some(AsNumber(data))
    else if data.JObj? then
      var v := Get(data.entries, "intensity", JInt(0));
      LookupSound(data.entries, "intensity");
      if IsNumber(v) then Some(AsNumber(v)) else FirstNumber(data.entries)
    else None
  }

  method ReadIntensity(data: Json) returns (r: Option<int>)
    ensures r == IntensityOf(data)
  {
    if IsNumber(data) {
      r := Some(AsNumber(data));
    } else if data.JObj? {
      var value := Get(data.entries, "intensity", JInt(0));
      if IsNumber(value) {
        r := Some(AsNumber(value));
      } else {
        r := ScanNumber(data.entries);
      }
    } else {
      r := None;
    }
  }

  /**
   * The colour temperature a get_cct payload reports: a number as it is; for
   * a dict, its numeric 'cct' entry, otherwise the first numeric value.
   * It resolves exactly when the payload is a number or a dict holding one.
   */
  function CctOf(data: Json): (r: Option<int>)
    ensures IsNumber(data) ==> r == Some(AsNumber(data))
    ensures data.JObj? && HasKey(data.entries, "cct") && IsNumber(Lookup(data.entries, "cct").value) ==>
              r == Some(AsNumber(Lookup(data.entries, "cct").value))
    ensures data.JObj? && !(HasKey(data.entries, "cct") && IsNumber(Lookup(data.entries, "cct").value)) ==>
              r == FirstNumber(data.entries)
    ensures r.None? <==>
              && !IsNumber(data)
              && (data.JObj? ==> forall i :: 0 <= i < |data.entries| ==> !IsNumber(data.entries[i].1))
  {
    if IsNumber(data) then Some(AsNumber(data))
    else if data.JObj? then
      var es := data.entries;
      if HasKey(es, "cct") && IsNumber(Lookup(es, "cct").value) then
        LookupSound(es, "cct");
        Some(AsNumber(Lookup(es, "cct").value))
      else FirstNumber(es)
    else None
  }

  method ReadCct(data: Json) returns (r: Option<int>)
    ensures r == CctOf(data)
  {
    if IsNumber(data) {
      r := Some(AsNumber(data));
    } else if data.JObj? {
      var es := data.entries;
      if HasKey(es, "cct") && IsNumber(Lookup(es, "cct").value) {
        r := Some(AsNumber(Lookup(es, "cct").value));
      } else {
        r := ScanNumber(es);
      }
    } else {
      r := None;
    }
  }

  /** An entry the HSI scan takes as the hue, or as the saturation (keys compared lower-cased). */
  predicate HueEntry(e: (string, Json)) { Lower(e.0) == "hue" && IsNumber(e.1) }
  predicate SatEntry(e: (string, Json)) { Lower(e.0) == "sat" && IsNumber(e.1) }

  /**
   * The fallback HSI scan, from accumulated values `hue` and `sat`: each
   * matching entry overwrites its slot, and the scan stops as soon as both
   * are known. Both end up known exactly when each has a source.
   */
  function HsScan(es: Entries, hue: Option<int>, sat: Option<int>): (r: (Option<int>, Option<int>))
    ensures (r.0.Some? && r.1.Some?) <==>
              && (hue.Some? || exists i :: 0 <= i < |es| && HueEntry(es[i]))
              && (sat.Some? || exists i :: 0 <= i < |es| && SatEntry(es[i]))
    ensures r.0.Some? ==> r.0 == hue || exists i :: 0 <= i < |es| && HueEntry(es[i]) && r.0.value == AsNumber(es[i].1)
    ensures r.1.Some? ==> r.1 == sat || exists i :: 0 <= i < |es| && SatEntry(es[i]) && r.1.value == AsNumber(es[i].1)
    decreases |es|
  {
    if |es| == 0 then (hue, sat)
    else
      var hue' := if HueEntry(es[0]) then Some(AsNumber(es[0].1)) else hue;
      var sat' := if !HueEntry(es[0]) && SatEntry(es[0]) then Some(AsNumber(es[0].1)) else sat;
      if hue'.Some? && sat'.Some? then (hue', sat')
      else
        var r := HsScan(es[1..], hue', sat');
        assert forall i :: 1 <= i < |es| ==> es[1..][i - 1] == es[i];
        assert !(HueEntry(es[0]) && SatEntry(es[0]));
        r
  }

  method ScanHs(es: Entries) returns (hue: Option<int>, sat: Option<int>)
    ensures (hue, sat) == HsScan(es, None, None)
  {
    hue, sat := None, None;
    var i := 0;
    while i < |es|
      invariant 0 <= i <= |es|
      invariant HsScan(es, None, None) == HsScan(es[i..], hue, sat)
    {
      var (key, value) := es[i];
      assert es[i..][0] == es[i];
      assert es[i..][1..] == es[i + 1..];
      if Lower(key) == "hue" && IsNumber(value) {
        hue := Some(AsNumber(value));
      } else if Lower(key) == "sat" && IsNumber(value) {
        sat := Some(AsNumber(value));
      }
      if hue.Some? && sat.Some? {
        break;
      }
      i := i + 1;
    }
  }

  /**
   * The hue and saturation a get_hsi payload reports: a dict with both 'hue'
   * and 'sat' gives them when both are numbers and nothing otherwise; a dict
   * lacking either key is scanned; a bare number is a hue with saturation 100.
   */
  function HsOf(data: Json): (r: Option<(int, int)>)
    ensures IsNumber(data) ==> r == Some((AsNumber(data), 100))
    ensures !IsNumber(data) && !data.JObj? ==> r.None?
    ensures data.JObj? && HasKey(data.entries, "hue") && HasKey(data.entries, "sat") ==>
              r == (var h, s := Lookup(data.entries, "hue").value, Lookup(data.entries, "sat").value;
                    if IsNumber(h) && IsNumber(s) then Some((AsNumber(h), AsNumber(s))) else None)
    ensures data.JObj? && !(HasKey(data.entries, "hue") && HasKey(data.entries, "sat")) ==>
              (r.Some? <==>
                 && (exists i :: 0 <= i < |data.entries| && HueEntry(data.entries[i]))
                 && (exists i :: 0 <= i < |data.entries| && SatEntry(data.entries[i])))
    ensures data.JObj? && !(HasKey(data.entries, "hue") && HasKey(data.entries, "sat")) && r.Some? ==>
              && (exists i :: 0 <= i < |data.entries| && HueEntry(data.entries[i]) && r.value.0 == AsNumber(data.entries[i].1))
              && (exists i :: 0 <= i < |data.entries| && SatEntry(data.entries[i]) && r.value.1 == AsNumber(data.entries[i].1))
  {
    if data.JObj? then
      var es := data.entries;
      if HasKey(es, "hue") && HasKey(es, "sat") then
        var h, s := Lookup(es, "hue").value, Lookup(es, "sat").value;
        if IsNumber(h) && IsNumber(s) then Some((AsNumber(h), AsNumber(s))) else None
      else
        var scanned := HsScan(es, None, None);
        if scanned.0.Some? && scanned.1.Some? then Some((scanned.0.value, scanned.1.value)) else None
    else if IsNumber(data) then Some((AsNumber(data), 100))
    else None
  }

  method ReadHs(data: Json) returns (r: Option<(int, int)>)
    ensures r == HsOf(data)
  {
    r := None;
    if data.JObj? {
      var es := data.entries;
      if HasKey(es, "hue") && HasKey(es, "sat") {
        var h, s := Lookup(es, "hue").value, Lookup(es, "sat").value;
        if IsNumber(h) && IsNumber(s) {
          r := Some((AsNumber(h), AsNumber(s)));
        }
      } else {
        var hue, sat := ScanHs(es);
        if hue.Some? && sat.Some? {
          r := Some((hue.value, sat.value));
        }
      }
    } else if IsNumber(data) {
      r := Some((AsNumber(data), 100));
    }
  }

  /** Entries the RGB scan takes as a component (keys compared lower-cased). */
  predicate ComponentEntry(e: (string, Json), name: string) { Lower(e.0) == name && IsNumber(e.1) }

  /** The fallback RGB scan: like the HSI one, over three slots. */
  function RgbScan(es: Entries, r: Option<int>, g: Option<int>, b: Option<int>): (res: (Option<int>, Option<int>, Option<int>))
    ensures (res.0.Some? && res.1.Some? && res.2.Some?) <==>
              && (r.Some? || exists i :: 0 <= i < |es| && ComponentEntry(es[i], "r"))
              && (g.Some? || exists i :: 0 <= i < |es| && ComponentEntry(es[i], "g"))
              && (b.Some? || exists i :: 0 <= i < |es| && ComponentEntry(es[i], "b"))
    decreases |es|
  {
    if |es| == 0 then (r, g, b)
    else
      var e := es[0];
      var r' := if ComponentEntry(e, "r") then Some(AsNumber(e.1)) else r;
      var g' := if !ComponentEntry(e, "r") && ComponentEntry(e, "g") then Some(AsNumber(e.1)) else g;
      var b' := if !ComponentEntry(e, "r") && !ComponentEntry(e, "g") && ComponentEntry(e, "b") then Some(AsNumber(e.1)) else b;
      if r'.Some? && g'.Some? && b'.Some? then (r', g', b')
      else
        var res := RgbScan(es[1..], r', g', b');
        assert forall i :: 1 <= i < |es| ==> es[1..][i - 1] == es[i];
        assert !(ComponentEntry(e, "r") && ComponentEntry(e, "g"));
        assert !(ComponentEntry(e, "r") && ComponentEntry(e, "b"));
        assert !(ComponentEntry(e, "g") && ComponentEntry(e, "b"));
        res
  }

  /** Each component the RGB scan finds is the one it started with or comes from a matching entry. */
  lemma {:induction false} RgbScanOrigin(es: Entries, r: Option<int>, g: Option<int>, b: Option<int>)
    ensures var res := RgbScan(es, r, g, b);
      && (res.0.Some? ==> res.0 == r || exists i :: 0 <= i < |es| && ComponentEntry(es[i], "r") && res.0.value == AsNumber(es[i].1))
      && (res.1.Some? ==> res.1 == g || exists i :: 0 <= i < |es| && ComponentEntry(es[i], "g") && res.1.value == AsNumber(es[i].1))
      && (res.2.Some? ==> res.2 == b || exists i :: 0 <= i < |es| && ComponentEntry(es[i], "b") && res.2.value == AsNumber(es[i].1))
    decreases |es|
  {
    if |es| > 0 {
      var e := es[0];
      var r' := if ComponentEntry(e, "r") then Some(AsNumber(e.1)) else r;
      var g' := if !ComponentEntry(e, "r") && ComponentEntry(e, "g") then Some(AsNumber(e.1)) else g;
      var b' := if !ComponentEntry(e, "r") && !ComponentEntry(e, "g") && ComponentEntry(e, "b") then Some(AsNumber(e.1)) else b;
      if !(r'.Some? && g'.Some? && b'.Some?) {
        RgbScanOrigin(es[1..], r', g', b');
        assert forall i :: 1 <= i < |es| ==> es[1..][i - 1] == es[i];
      }
    }
  }

  method ScanRgb(es: Entries) returns (r: Option<int>, g: Option<int>, b: Option<int>)
    ensures (r, g, b) == RgbScan(es, None, None, None)
  {
    r, g, b := None, None, None;
    var i := 0;
    while i < |es|
      invariant 0 <= i <= |es|
      invariant RgbScan(es, None, None, None) == RgbScan(es[i..], r, g, b)
    {
      var (key, value) := es[i];
      assert es[i..][0] == es[i];
      assert es[i..][1..] == es[i + 1..];
      if Lower(key) == "r" && IsNumber(value) {
        r := Some(AsNumber(value));
      } else if Lower(key) == "g" && IsNumber(value) {
        g := Some(AsNumber(value));
      } else if Lower(key) == "b" && IsNumber(value) {
        b := Some(AsNumber(value));
      }
      if r.Some? && g.Some? && b.Some? {
        break;
      }
      i := i + 1;
    }
  }

  /**
   * The RGB triple a get_rgb payload reports: a dict with 'r', 'g' and 'b'
   * gives them when all three are integers and nothing otherwise; a dict
   * lacking any of them is scanned; a bare number v is the grey (v, v, v).
   */
  function RgbOf(data: Json): (res: Option<(int, int, int)>)
    ensures IsNumber(data) ==> res == Some((AsNumber(data), AsNumber(data), AsNumber(data)))
    ensures !IsNumber(data) && !data.JObj? ==> res.None?
    ensures data.JObj? && HasKey(data.entries, "r") && HasKey(data.entries, "g") && HasKey(data.entries, "b") ==>
              (res.Some? <==> IsNumber(Lookup(data.entries, "r").value) && IsNumber(Lookup(data.entries, "g").value)
                              && IsNumber(Lookup(data.entries, "b").value))
              && (res.Some? ==> res.value == (AsNumber(Lookup(data.entries, "r").value), AsNumber(Lookup(data.entries, "g").value),
                                              AsNumber(Lookup(data.entries, "b").value)))
    ensures data.JObj? && !(HasKey(data.entries, "r") && HasKey(data.entries, "g") && HasKey(data.entries, "b")) ==>
              (res.Some? <==>
                 && (exists i :: 0 <= i < |data.entries| && ComponentEntry(data.entries[i], "r"))
                 && (exists i :: 0 <= i < |data.entries| && ComponentEntry(data.entries[i], "g"))
                 && (exists i :: 0 <= i < |data.entries| && ComponentEntry(data.entries[i], "b")))
    ensures data.JObj? && !(HasKey(data.entries, "r") && HasKey(data.entries, "g") && HasKey(data.entries, "b")) && res.Some? ==>
              && (exists i :: 0 <= i < |data.entries| && ComponentEntry(data.entries[i], "r") && res.value.0 == AsNumber(data.entries[i].1))
              && (exists i :: 0 <= i < |data.entries| && ComponentEntry(data.entries[i], "g") && res.value.1 == AsNumber(data.entries[i].1))
              && (exists i :: 0 <= i < |data.entries| && ComponentEntry(data.entries[i], "b") && res.value.2 == AsNumber(data.entries[i].1))
  {
    if data.JObj? then
      var es := data.entries;
      if HasKey(es, "r") && HasKey(es, "g") && HasKey(es, "b") then
        var r, g, b := Lookup(es, "r").value, Lookup(es, "g").value, Lookup(es, "b").value;
        if IsNumber(r) && IsNumber(g) && IsNumber(b) then Some((AsNumber(r), AsNumber(g), AsNumber(b))) else None
      else
        var scanned := RgbScan(es, None, None, None);
        RgbScanOrigin(es, None, None, None);
        if scanned.0.Some? && scanned.1.Some? && scanned.2.Some? then
          Some((scanned.0.value, scanned.1.value, scanned.2.value))
        else None
    else if IsNumber(data) then Some((AsNumber(data), AsNumber(data), AsNumber(data)))
    else None
  }

  method ReadRgb(data: Json) returns (res: Option<(int, int, int)>)
    ensures res == RgbOf(data)
  {
    res := None;
    if data.JObj? {
      var es := data.entries;
      if HasKey(es, "r") && HasKey(es, "g") && HasKey(es, "b") {
        var r, g, b := Lookup(es, "r").value, Lookup(es, "g").value, Lookup(es, "b").value;
        if IsNumber(r) && IsNumber(g) && IsNumber(b) {
          res := Some((AsNumber(r), AsNumber(g), AsNumber(b)));
        }
      } else {
        var r, g, b := ScanRgb(es);
        if r.Some? && g.Some? && b.Some? {
          res := Some((r.value, g.value, b.value));
        }
      }
    } else if IsNumber(data) {
      res := Some((AsNumber(data), AsNumber(data), AsNumber(data)));
    }
  }
}
