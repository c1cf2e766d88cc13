/**
 * One Amaran light entity (class AmaranLight in amaran_HA/light.py): its
 * capability narrowing at construction, turn on / turn off / toggle, and the
 * state poll. The controller is seen through the requests the entity sends
 * (`requests`, in order) and the replies it receives; the session behaviour
 * behind each request is the subject of module Api.
 */
module Light {
  import opened Wrappers
  import opened Json
  import opened ColorModes
  import opened Telemetry
  import Api

  /** A colour setting: a colour temperature in kelvin, a hue/saturation pair, or an RGB triple. */
  datatype Colour = Kelvin(k: int) | HueSat(hue: int, sat: int) | Triple(r: int, g: int, b: int)

  function ModeOf(c: Colour): (m: ColorMode)
    ensures IsColour(m)
  {
    match c
    case Kelvin(_) => ColorTemp
    case HueSat(_, _) => Hs
    case Triple(_, _, _) => Rgb
  }

  /** The state an entity reports to the host. */
  datatype LightState = LightState(
    isOn: bool,
    brightness: int,
    colorTemp: Option<int>,
    hsColor: Option<(int, int)>,
    rgbColor: Option<(int, int, int)>,
    colorMode: ColorMode)

  /** At most one colour value is held, and a held value agrees with the colour mode. */
  predicate Exclusive(s: LightState)
  {
    && (s.colorTemp.Some? ==> s.hsColor.None? && s.rgbColor.None? && s.colorMode == ColorTemp)
    && (s.hsColor.Some? ==> s.colorTemp.None? && s.rgbColor.None? && s.colorMode == Hs)
    && (s.rgbColor.Some? ==> s.colorTemp.None? && s.hsColor.None? && s.colorMode == Rgb)
  }

  /** Adopting a colour: it is stored, the other two colour values are cleared, and the mode follows. */
  function Apply(s: LightState, c: Colour): (r: LightState)
    ensures Exclusive(r)
    ensures r.colorMode == ModeOf(c)
    ensures r.isOn == s.isOn && r.brightness == s.brightness
    ensures c.Kelvin? ==> r.colorTemp == Some(c.k)
    ensures c.HueSat? ==> r.hsColor == Some((c.hue, c.sat))
    ensures c.Triple? ==> r.rgbColor == Some((c.r, c.g, c.b))
  {
    match c
    case Kelvin(k) => s.(colorTemp := Some(k), hsColor := None, rgbColor := None, colorMode := ColorTemp)
    case HueSat(h, sat) => s.(colorTemp := None, hsColor := Some((h, sat)), rgbColor := None, colorMode := Hs)
    case Triple(r, g, b) => s.(colorTemp := None, hsColor := None, rgbColor := Some((r, g, b)), colorMode := Rgb)
  }

  /** What an operation does: the state it leaves and the requests it sends, in order. */
  datatype Effect = Effect(state: LightState, calls: seq<Api.Call>)

  /**
   * The keyword arguments of a turn-on service call: brightness, colour
   * temperature in kelvin, hue/saturation and RGB, and whether any other
   * keyword (a transition, an effect, ...) was given.
   */
  datatype TurnOnArgs = TurnOnArgs(
    brightness: Option<int>,
    kelvin: Option<int>,
    hs: Option<(int, int)>,
    rgb: Option<(int, int, int)>,
    other: bool)

  /** `not kwargs`. */
  predicate NoArgs(kw: TurnOnArgs)
  {
    kw.brightness.None? && kw.kelvin.None? && kw.hs.None? && kw.rgb.None? && !kw.other
  }

  /** Whether a colour attribute was given. */
  predicate ColourGiven(kw: TurnOnArgs)
  {
    kw.kelvin.Some? || kw.hs.Some? || kw.rgb.Some?
  }

  /** `max(cct_min, min(cct_max, kelvin))`. */
  function Clamp(k: int, lo: int, hi: int): (r: int)
    ensures lo <= r
    ensures lo <= hi ==> r <= hi
    ensures lo <= k <= hi ==> r == k
    ensures hi < lo ==> r == lo
  {
    if lo > (if hi < k then hi else k) then lo else if hi < k then hi else k
  }

  /** The colour turn-on applies: colour temperature (clamped), else hue/saturation, else RGB. */
  function Chosen(kw: TurnOnArgs, lo: int, hi: int): (c: Option<Colour>)
    ensures c.Some? <==> ColourGiven(kw)
  {
    if kw.kelvin.Some? then Some(Kelvin(Clamp(kw.kelvin.value, lo, hi)))
    else if kw.hs.Some? then Some(HueSat(kw.hs.value.0, kw.hs.value.1))
    else if kw.rgb.Some? then Some(Triple(kw.rgb.value.0, kw.rgb.value.1, kw.rgb.value.2))
    else None
  }

  function SetCall(nodeId: string, action: string, args: Entries): Api.Call
  {
    Api.Call(action, Some(nodeId), args)
  }

  function IntensityCall(nodeId: string, intensity: int): Api.Call
  {
    SetCall(nodeId, "set_intensity", [("intensity", JInt(intensity))])
  }

  /** The request that sets a colour; hue/saturation and RGB carry the intensity along. */
  function ColourCall(nodeId: string, c: Colour, intensity: int): Api.Call
  {
    match c
    case Kelvin(k) => SetCall(nodeId, "set_cct", [("cct", JInt(k))])
    case HueSat(h, s) => SetCall(nodeId, "set_hsi", [("hue", JInt(h)), ("sat", JInt(s)), ("intensity", JInt(intensity))])
    case Triple(r, g, b) =>
      SetCall(nodeId, "set_rgb", [("r", JInt(r)), ("g", JInt(g)), ("b", JInt(b)), ("intensity", JInt(intensity))])
  }

  /**
   * The intensity turn-on works with: the requested brightness scaled to
   * 0-1000, else the current brightness scaled, else (brightness 0) full.
   */
  function TurnOnIntensity(s: LightState, kw: TurnOnArgs): int
  {
    if kw.brightness.Some? then BrightnessToIntensity(kw.brightness.value)
    else if s.brightness != 0 then BrightnessToIntensity(s.brightness)
    else FullIntensity
  }

  /**
   * async_turn_on: the new state and the requests sent, in order. The light
   * ends on; a requested brightness is sent first and kept; the colour of
   * highest priority is sent and adopted, clearing the others, and the rest
   * are ignored; without any keyword the light is switched on at its current
   * brightness, or at full brightness when that is 0; nothing else changes.
   */
  function TurnOnEffect(s: LightState, nodeId: string, lo: int, hi: int, kw: TurnOnArgs): (r: Effect)
    ensures r.state.isOn
    ensures Exclusive(s) ==> Exclusive(r.state)
    ensures |r.calls| == (if kw.brightness.Some? then 1 else 0) + (if ColourGiven(kw) then 1 else 0) + (if NoArgs(kw) then 1 else 0)
    ensures kw.brightness.Some? ==>
              r.calls[0] == IntensityCall(nodeId, BrightnessToIntensity(kw.brightness.value)) && r.state.brightness == kw.brightness.value
    ensures NoArgs(kw) ==>
              && r.calls == [IntensityCall(nodeId, if s.brightness == 0 then FullIntensity else BrightnessToIntensity(s.brightness))]
              && r.state == s.(isOn := true, brightness := if s.brightness == 0 then FullBrightness else s.brightness)
    ensures !NoArgs(kw) && kw.brightness.None? ==> r.state.brightness == s.brightness
    ensures kw.kelvin.Some? ==>
              && r.calls[|r.calls| - 1] == SetCall(nodeId, "set_cct", [("cct", JInt(Clamp(kw.kelvin.value, lo, hi)))])
              && r.state.colorMode == ColorTemp && r.state.colorTemp == Some(Clamp(kw.kelvin.value, lo, hi))
              && r.state.hsColor.None? && r.state.rgbColor.None?
    ensures kw.kelvin.None? && kw.hs.Some? ==>
              && r.calls[|r.calls| - 1] == ColourCall(nodeId, HueSat(kw.hs.value.0, kw.hs.value.1), TurnOnIntensity(s, kw))
              && r.state.colorMode == Hs && r.state.hsColor == kw.hs && r.state.colorTemp.None? && r.state.rgbColor.None?
    ensures kw.kelvin.None? && kw.hs.None? && kw.rgb.Some? ==>
              && r.calls[|r.calls| - 1] == ColourCall(nodeId, Triple(kw.rgb.value.0, kw.rgb.value.1, kw.rgb.value.2), TurnOnIntensity(s, kw))
              && r.state.colorMode == Rgb && r.state.rgbColor == kw.rgb && r.state.colorTemp.None? && r.state.hsColor.None?
    ensures !ColourGiven(kw) ==>
              r.state.colorMode == s.colorMode && r.state.colorTemp == s.colorTemp && r.state.hsColor == s.hsColor && r.state.rgbColor == s.rgbColor
  {
    var intensity := TurnOnIntensity(s, kw);
    var s1 := if kw.brightness.Some? then s.(brightness := kw.brightness.value) else s;
    var calls1 := if kw.brightness.Some? then [IntensityCall(nodeId, intensity)] else [];
    var chosen := Chosen(kw, lo, hi);
    var s2 := if chosen.Some? then Apply(s1, chosen.value) else s1;
    var calls2 := calls1 + if chosen.Some? then [ColourCall(nodeId, chosen.value, intensity)] else [];
    var s3 := if NoArgs(kw) && s.brightness == 0 then s2.(brightness := FullBrightness) else s2;
    var calls3 := calls2 + if NoArgs(kw) then [IntensityCall(nodeId, intensity)] else [];
    Effect(s3.(isOn := true), calls3)
  }

  /** async_turn_off: one request for intensity 0, and the light is off; nothing else changes. */
  function TurnOffEffect(s: LightState, nodeId: string): (r: Effect)
    ensures !r.state.isOn
    ensures r.calls == [IntensityCall(nodeId, 0)]
    ensures r.state.(isOn := s.isOn) == s
  {
    Effect(s.(isOn := false), [IntensityCall(nodeId, 0)])
  }

  /** async_toggle: turn-off when on, turn-on with the same arguments when off; the on/off state flips. */
  function ToggleEffect(s: LightState, nodeId: string, lo: int, hi: int, kw: TurnOnArgs): (r: Effect)
    ensures r.state.isOn == !s.isOn
    ensures s.isOn ==> r == TurnOffEffect(s, nodeId)
    ensures !s.isOn ==> r == TurnOnEffect(s, nodeId, lo, hi, kw)
  {
    if s.isOn then TurnOffEffect(s, nodeId) else TurnOnEffect(s, nodeId, lo, hi, kw)
  }

  /** The action that polls a colour mode. */
  function QueryAction(m: ColorMode): string
  {
    match m
    case ColorTemp => "get_cct"
    case Hs => "get_hsi"
    case _ => "get_rgb"
  }

  function QueryCall(nodeId: string, action: string): Api.Call
  {
    Api.Call(action, Some(nodeId), [])
  }

  /** The reply the controller gives to an action: `replies[action]`, or the `{}` sentinel. */
  function Reply(replies: map<string, Json>, action: string): Json
  {
    if action in replies then replies[action] else Empty
  }

  /** The intensity a poll reports, if its reply decodes. */
  function PolledIntensity(replies: map<string, Json>): Option<int>
  {
    var data := Api.ResponseData(Reply(replies, "get_intensity"));
    if data.Some? then IntensityOf(data.value) else None
  }

  /** The colour a colour-mode query reports, if its reply decodes. */
  function PolledColour(m: ColorMode, replies: map<string, Json>): (c: Option<Colour>)
    requires IsColour(m)
    ensures c.Some? ==> ModeOf(c.value) == m
    ensures var data := Api.ResponseData(Reply(replies, QueryAction(m)));
      && (data.None? ==> c.None?)
      && (data.Some? && m == ColorTemp ==>
            (c.Some? <==> CctOf(data.value).Some?) && (c.Some? ==> c.value == Kelvin(CctOf(data.value).value)))
      && (data.Some? && m == Hs ==>
            (c.Some? <==> HsOf(data.value).Some?) && (c.Some? ==> c.value == HueSat(HsOf(data.value).value.0, HsOf(data.value).value.1)))
      && (data.Some? && m == Rgb ==>
            (c.Some? <==> RgbOf(data.value).Some?)
            && (c.Some? ==> c.value == Triple(RgbOf(data.value).value.0, RgbOf(data.value).value.1, RgbOf(data.value).value.2)))
  {
    var data := Api.ResponseData(Reply(replies, QueryAction(m)));
    if data.None? then None
    else if m == ColorTemp then
      var t := CctOf(data.value);
      if t.Some? then Some(Kelvin(t.value)) else None
    else if m == Hs then
      var hs := HsOf(data.value);
      if hs.Some? then Some(HueSat(hs.value.0, hs.value.1)) else None
    else
      var rgb := RgbOf(data.value);
      if rgb.Some? then Some(Triple(rgb.value.0, rgb.value.1, rgb.value.2)) else None
  }

  /** The current colour mode, when it is a supported colour mode: the poll keeps to it. */
  function PreservedMode(mode: ColorMode, modes: set<ColorMode>): Option<ColorMode>
  {
    if IsColour(mode) && mode in modes then Some(mode) else None
  }

  /** The priority of a colour mode in a poll: colour temperature, then hue/saturation, then RGB. */
  function Rank(m: ColorMode): int
  {
    match m
    case ColorTemp => 0
    case Hs => 1
    case _ => 2
  }

  /** The supported colour modes in priority order. */
  function ColourOrder(modes: set<ColorMode>): (r: seq<ColorMode>)
    ensures forall m :: m in r <==> m in modes && IsColour(m)
    ensures forall i, j :: 0 <= i < j < |r| ==> Rank(r[i]) < Rank(r[j])
  {
    (if ColorTemp in modes then [ColorTemp] else [])
      + (if Hs in modes then [Hs] else [])
      + (if Rgb in modes then [Rgb] else [])
  }

  /** What each colour query of a poll decodes to, if it is sent. */
  datatype Decodings = Decodings(ct: Option<Colour>, hs: Option<Colour>, rgb: Option<Colour>)

  /** The decodings of the replies the controller gives. */
  function DecodingsOf(replies: map<string, Json>): (d: Decodings)
    ensures WellTyped(d)
  {
    Decodings(PolledColour(ColorTemp, replies), PolledColour(Hs, replies), PolledColour(Rgb, replies))
  }

  function Decoded(m: ColorMode, d: Decodings): Option<Colour>
  {
    match m
    case ColorTemp => d.ct
    case Hs => d.hs
    case _ => d.rgb
  }

  /** Each query decodes, if at all, to a colour of its own mode. */
  predicate WellTyped(d: Decodings)
  {
    && (d.ct.Some? ==> ModeOf(d.ct.value) == ColorTemp)
    && (d.hs.Some? ==> ModeOf(d.hs.value) == Hs)
    && (d.rgb.Some? ==> ModeOf(d.rgb.value) == Rgb)
  }

  /** Progress of the colour part of a poll: the mode settled on, the colour found, and the modes queried in order. */
  datatype Poll = Poll(mode: Option<ColorMode>, found: Option<Colour>, queried: seq<ColorMode>)

  /** One colour stage of async_update: queried when supported and no other mode is settled on. */
  function PollStage(p: Poll, m: ColorMode, modes: set<ColorMode>, d: Decodings): Poll
  {
    if m in modes && (p.mode.None? || p.mode == Some(m)) then
      var c := Decoded(m, d);
      Poll(if c.Some? then Some(m) else p.mode, if c.Some? then c else p.found, p.queried + [m])
    else p
  }

  /**
   * The colour part of async_update. With a supported colour mode current,
   * only that mode is queried; otherwise the supported colour modes are
   * queried in priority order until one decodes. The mode settled on is the
   * current one or that of the colour found.
   */
  function PollColours(mode: ColorMode, modes: set<ColorMode>, d: Decodings): (p: Poll)
    requires WellTyped(d)
    ensures p.found.Some? ==> ModeOf(p.found.value) in modes && p.mode == Some(ModeOf(p.found.value))
    ensures p.found.None? ==> p.mode == PreservedMode(mode, modes)
    ensures p.found.Some? ==> p.found == Decoded(ModeOf(p.found.value), d)
    ensures PreservedMode(mode, modes).Some? ==> p.queried == [mode] && p.found == Decoded(mode, d)
  {
    var p0 := Poll(PreservedMode(mode, modes), None, []);
    PollStage(PollStage(PollStage(p0, ColorTemp, modes, d), Hs, modes, d), Rgb, modes, d)
  }

  /**
   * Without a supported current colour mode, the poll queries the supported
   * colour modes in priority order, and a queried mode decodes exactly when
   * it is the last one queried and its colour is the one found.
   */
  lemma PollOrder(mode: ColorMode, modes: set<ColorMode>, d: Decodings)
    requires WellTyped(d) && PreservedMode(mode, modes).None?
    ensures var p := PollColours(mode, modes, d);
      && p.queried <= ColourOrder(modes)
      && forall i :: 0 <= i < |p.queried| ==>
           (Decoded(p.queried[i], d).Some? <==> p.found.Some? && i == |p.queried| - 1)
  {
    var p1 := PollStage(Poll(None, None, []), ColorTemp, modes, d);
    var p2 := PollStage(p1, Hs, modes, d);
    var p3 := PollStage(p2, Rgb, modes, d);
    var o1: seq<ColorMode> := if ColorTemp in modes then [ColorTemp] else [];
    var o2: seq<ColorMode> := if Hs in modes then [Hs] else [];
    var o3: seq<ColorMode> := if Rgb in modes then [Rgb] else [];
    assert ColourOrder(modes) == o1 + o2 + o3;
    assert p1.queried == o1;
    if ColorTemp in modes && d.ct.Some? {
      assert p3 == p1;
    } else if Hs in modes && d.hs.Some? {
      assert p3 == p2 && p2.queried == o1 + [Hs];
    } else {
      assert p2.queried == o1 + o2;
      assert p3.queried == o1 + o2 + o3;
    }
  }

  /**
   * Without a supported current colour mode, the poll stops at the colour
   * found; it finds none only when every supported colour mode was queried
   * and none of them decoded.
   */
  lemma PollStops(mode: ColorMode, modes: set<ColorMode>, d: Decodings)
    requires WellTyped(d) && PreservedMode(mode, modes).None?
    ensures var p := PollColours(mode, modes, d);
      && (p.found.Some? ==> 0 < |p.queried| && p.queried[|p.queried| - 1] == ModeOf(p.found.value))
      && (p.found.None? ==> p.queried == ColourOrder(modes))
      && (p.found.None? ==> forall m :: m in p.queried ==> Decoded(m, d).None?)
  {
    var p1 := PollStage(Poll(None, None, []), ColorTemp, modes, d);
    assert p1.queried == if ColorTemp in modes then [ColorTemp] else [];
  }

  /** The requests a poll sends after get_intensity, one per queried mode, in order. */
  function QueryCalls(nodeId: string, queried: seq<ColorMode>): (r: seq<Api.Call>)
    ensures |r| == |queried|
    ensures forall i :: 0 <= i < |queried| ==> r[i] == QueryCall(nodeId, QueryAction(queried[i]))
  {
    if |queried| == 0 then [] else [QueryCall(nodeId, QueryAction(queried[0]))] + QueryCalls(nodeId, queried[1..])
  }

  /**
   * async_update: the new state and the requests sent. get_intensity comes
   * first; a decoded intensity sets the brightness and the on/off state, and
   * otherwise both are kept. A decoded colour is adopted exclusively; with
   * none, the colour values and the mode are kept.
   */
  function UpdateEffect(s: LightState, modes: set<ColorMode>, nodeId: string, replies: map<string, Json>): (r: Effect)
    ensures r.calls == [QueryCall(nodeId, "get_intensity")] + QueryCalls(nodeId, PollColours(s.colorMode, modes, DecodingsOf(replies)).queried)
    ensures PolledIntensity(replies).Some? ==>
              r.state.brightness == IntensityToBrightness(PolledIntensity(replies).value) && r.state.isOn == (PolledIntensity(replies).value > 0)
    ensures PolledIntensity(replies).None? ==> r.state.brightness == s.brightness && r.state.isOn == s.isOn
    ensures Exclusive(s) ==> Exclusive(r.state)
    ensures r.state.colorMode != s.colorMode ==> r.state.colorMode in modes && IsColour(r.state.colorMode)
    ensures var p := PollColours(s.colorMode, modes, DecodingsOf(replies));
      && (p.found.Some? ==> r.state == Apply(s.(brightness := r.state.brightness, isOn := r.state.isOn), p.found.value))
      && (p.found.None? ==> r.state == s.(brightness := r.state.brightness, isOn := r.state.isOn))
  {
    var v := PolledIntensity(replies);
    var s1 := if v.Some? then s.(brightness := IntensityToBrightness(v.value), isOn := v.value > 0) else s;
    var p := PollColours(s.colorMode, modes, DecodingsOf(replies));
    var s2 := if p.found.Some? then Apply(s1, p.found.value) else s1;
    Effect(s2, [QueryCall(nodeId, "get_intensity")] + QueryCalls(nodeId, p.queried))
  }

  lemma QueryCallsConcat(nodeId: string, a: seq<ColorMode>, b: seq<ColorMode>)
    ensures QueryCalls(nodeId, a + b) == QueryCalls(nodeId, a) + QueryCalls(nodeId, b)
  {
    assert forall i :: 0 <= i < |a| ==> (a + b)[i] == a[i];
    assert forall i :: 0 <= i < |b| ==> (a + b)[|a| + i] == b[i];
  }

  lemma ConcatAssoc<T>(a: seq<T>, b: seq<T>, c: seq<T>)
    ensures (a + b) + c == a + (b + c)
  {
  }

  /**
   * How the poll's separate colour variables hold the colour found: at most
   * one is set, and it is the one found.
   */
  ghost predicate Found(found: Option<Colour>, t: Option<int>, hs: Option<(int, int)>, rgb: Option<(int, int, int)>)
  {
    match found
    case None => t.None? && hs.None? && rgb.None?
    case Some(Kelvin(k)) => t == Some(k) && hs.None? && rgb.None?
    case Some(HueSat(h, sat)) => t.None? && hs == Some((h, sat)) && rgb.None?
    case Some(Triple(r, g, b)) => t.None? && hs.None? && rgb == Some((r, g, b))
  }

  /** What the host can do to an entity: the three services and a poll. */
  datatype Event = TurnOnEvent(kw: TurnOnArgs) | TurnOffEvent | ToggleEvent(kw: TurnOnArgs) | UpdateEvent(replies: map<string, Json>)

  /** The effect of one event on an entity with supported modes `modes` and colour-temperature bounds `lo`..`hi`. */
  function Step(s: LightState, modes: set<ColorMode>, nodeId: string, lo: int, hi: int, e: Event): Effect
  {
    match e
    case TurnOnEvent(kw) => TurnOnEffect(s, nodeId, lo, hi, kw)
    case TurnOffEvent => TurnOffEffect(s, nodeId)
    case ToggleEvent(kw) => ToggleEffect(s, nodeId, lo, hi, kw)
    case UpdateEvent(replies) => UpdateEffect(s, modes, nodeId, replies)
  }

  /** A sequence of events, in order: the final state and every request sent. */
  function Replay(s: LightState, modes: set<ColorMode>, nodeId: string, lo: int, hi: int, events: seq<Event>): Effect
    decreases |events|
  {
    if |events| == 0 then Effect(s, [])
    else
      var first := Step(s, modes, nodeId, lo, hi, events[0]);
      var rest := Replay(first.state, modes, nodeId, lo, hi, events[1..]);
      Effect(rest.state, first.calls + rest.calls)
  }

  /** Whatever the host does, an entity never holds two colour values, or one that disagrees with its mode. */
  lemma {:induction false} ReplayExclusive(s: LightState, modes: set<ColorMode>, nodeId: string, lo: int, hi: int, events: seq<Event>)
    requires Exclusive(s)
    ensures Exclusive(Replay(s, modes, nodeId, lo, hi, events).state)
    decreases |events|
  {
    if |events| > 0 {
      var first := Step(s, modes, nodeId, lo, hi, events[0]);
      ReplayExclusive(first.state, modes, nodeId, lo, hi, events[1..]);
    }
  }

  predicate Addressed(calls: seq<Api.Call>, nodeId: string)
  {
    forall i :: 0 <= i < |calls| ==> calls[i].nodeId == Some(nodeId)
  }

  /** Every request an entity sends is addressed to its own node. */
  lemma {:induction false} ReplayAddressed(s: LightState, modes: set<ColorMode>, nodeId: string, lo: int, hi: int, events: seq<Event>)
    ensures Addressed(Replay(s, modes, nodeId, lo, hi, events).calls, nodeId)
    decreases |events|
  {
    if |events| > 0 {
      var first := Step(s, modes, nodeId, lo, hi, events[0]);
      var rest := Replay(first.state, modes, nodeId, lo, hi, events[1..]);
      ReplayAddressed(first.state, modes, nodeId, lo, hi, events[1..]);
      StepAddressed(s, modes, nodeId, lo, hi, events[0]);
      AddressedConcat(first.calls, rest.calls, nodeId);
    }
  }

  lemma AddressedConcat(a: seq<Api.Call>, b: seq<Api.Call>, nodeId: string)
    requires Addressed(a, nodeId) && Addressed(b, nodeId)
    ensures Addressed(a + b, nodeId)
  {
    forall i | 0 <= i < |a + b|
      ensures (a + b)[i].nodeId == Some(nodeId)
    {
      if i < |a| {
        assert (a + b)[i] == a[i];
      } else {
        assert (a + b)[i] == b[i - |a|];
      }
    }
  }

  lemma StepAddressed(s: LightState, modes: set<ColorMode>, nodeId: string, lo: int, hi: int, e: Event)
    ensures Addressed(Step(s, modes, nodeId, lo, hi, e).calls, nodeId)
  {
    match e
    case TurnOnEvent(kw) => TurnOnAddressed(s, nodeId, lo, hi, kw);
    case TurnOffEvent =>
    case ToggleEvent(kw) => TurnOnAddressed(s, nodeId, lo, hi, kw);
    case UpdateEvent(replies) => UpdateAddressed(s, modes, nodeId, replies);
  }

  lemma TurnOnAddressed(s: LightState, nodeId: string, lo: int, hi: int, kw: TurnOnArgs)
    ensures Addressed(TurnOnEffect(s, nodeId, lo, hi, kw).calls, nodeId)
  {
    var intensity := TurnOnIntensity(s, kw);
    var chosen := Chosen(kw, lo, hi);
    var calls1: seq<Api.Call> := if kw.brightness.Some? then [IntensityCall(nodeId, intensity)] else [];
    var calls2: seq<Api.Call> := if chosen.Some? then [ColourCall(nodeId, chosen.value, intensity)] else [];
    var calls3: seq<Api.Call> := if NoArgs(kw) then [IntensityCall(nodeId, intensity)] else [];
    assert Addressed(calls2, nodeId) by {
      if chosen.Some? {
        match chosen.value
        case Kelvin(_) =>
        case HueSat(_, _) =>
        case Triple(_, _, _) =>
      }
    }
    AddressedConcat(calls1, calls2, nodeId);
    AddressedConcat(calls1 + calls2, calls3, nodeId);
    assert TurnOnEffect(s, nodeId, lo, hi, kw).calls == calls1 + calls2 + calls3;
  }

  lemma UpdateAddressed(s: LightState, modes: set<ColorMode>, nodeId: string, replies: map<string, Json>)
    ensures Addressed(UpdateEffect(s, modes, nodeId, replies).calls, nodeId)
  {
    var p := PollColours(s.colorMode, modes, DecodingsOf(replies));
    AddressedConcat([QueryCall(nodeId, "get_intensity")], QueryCalls(nodeId, p.queried), nodeId);
  }

  /**
   * Polls change the mode only to a supported colour mode: after any events
   * without turn-on requests, an entity that started in a supported mode, or
   * in Brightness, is still in one.
   */
  lemma {:induction false} PollsKeepModeSupported(s: LightState, modes: set<ColorMode>, nodeId: string, lo: int, hi: int, events: seq<Event>)
    requires s.colorMode in modes || s.colorMode == Brightness
    requires forall i :: 0 <= i < |events| ==> events[i].UpdateEvent? || events[i].TurnOffEvent?
    ensures var m := Replay(s, modes, nodeId, lo, hi, events).state.colorMode;
      m in modes || m == Brightness
    decreases |events|
  {
    if |events| > 0 {
      var first := Step(s, modes, nodeId, lo, hi, events[0]);
      PollsKeepModeSupported(first.state, modes, nodeId, lo, hi, events[1..]);
    }
  }

  /** A poll whose get_intensity reply carries 500 reports brightness 127 and on; with no colour reply nothing else changes. */
  lemma PollHalfIntensity(s: LightState, nodeId: string)
    ensures var r := UpdateEffect(s, {ColorTemp}, nodeId, map["get_intensity" := JObj([("data", JInt(500))])]);
      && r.state == s.(brightness := 127, isOn := true)
      && r.calls == [QueryCall(nodeId, "get_intensity"), QueryCall(nodeId, "get_cct")]
  {
    HalfIntensity();
  }

  /** An intensity dict without the 'intensity' key reads as 0: brightness 0 and off. */
  lemma PollIntensityKeyMissing(s: LightState, nodeId: string)
    ensures var r := UpdateEffect(s, {}, nodeId, map["get_intensity" := JObj([("data", JObj([("level", JInt(700))]))])]);
      r.state == s.(brightness := 0, isOn := false)
  {
  }

  /** A colour-temperature reply on a light showing a hue/saturation colour switches it to colour temperature and clears the hue. */
  lemma PollSwitchesToCct(nodeId: string)
    ensures var s := LightState(true, 255, None, Some((120, 50)), None, Hs);
      var r := UpdateEffect(s, {ColorTemp}, nodeId, map["get_cct" := JObj([("data", JObj([("cct", JInt(5600))]))])]);
      r.state == LightState(true, 255, Some(5600), None, None, ColorTemp)
  {
  }

  /** A requested colour temperature beyond the node's range is sent clamped. */
  lemma TurnOnClamps(s: LightState, nodeId: string)
    ensures var r := TurnOnEffect(s, nodeId, 2000, 10000, TurnOnArgs(None, Some(12000), None, None, false));
      && r.calls == [SetCall(nodeId, "set_cct", [("cct", JInt(10000))])]
      && r.state.colorTemp == Some(10000)
  {
  }

  /** A turn-on that carries only keywords the entity ignores sends nothing, yet reports the light on. */
  lemma TurnOnOtherOnly(s: LightState, nodeId: string, lo: int, hi: int)
    ensures var r := TurnOnEffect(s, nodeId, lo, hi, TurnOnArgs(None, None, None, None, true));
      r.calls == [] && r.state == s.(isOn := true)
  {
  }

  /** The `cct_min` / `cct_max` bound read from a node configuration, with its default. */
  function CctBound(config: Entries, key: string, default: int): (r: int)
    ensures !HasKey(config, key) ==> r == default
    ensures HasKey(config, key) && IsNumber(Lookup(config, key).value) ==> r == AsNumber(Lookup(config, key).value)
  {
    var v := Get(config, key, JInt(default));
    if IsNumber(v) then AsNumber(v) else default
  }

  /**
   * Whether the constructor's narrowing drops colour mode `m` from the
   * primary modes present: everything but ColorTemp when it is present,
   * else everything but Hs when that is present.
   */
  predicate Outranked(m: ColorMode, primary: seq<ColorMode>)
  {
    (m != ColorTemp && ColorTemp in primary) || (m != Hs && Hs in primary && ColorTemp !in primary)
  }

  /**
   * The constructor's narrowing of the mode set it is given: OnOff is
   * dropped, Brightness is dropped beside a colour mode, and of several
   * colour modes only the one of highest priority is kept.
   */
  method NarrowModes(modes: set<ColorMode>) returns (supported: set<ColorMode>)
    ensures supported == SupportedModes(modes)
  {
    supported := modes - {OnOff};
    if HasColour(supported) {
      supported := supported - {Brightness};
    }
    var primary := ColourOrder(supported);
    ghost var base := supported;
    if |primary| > 1 {
      supported := DropOutranked(supported, primary);
    }
    NarrowingKeeps(modes, base);
    assert forall m :: m in supported <==> m in SupportedModes(modes);
  }

  /** The narrowing loop: every mode of `primary` outranked by another of them is removed. */
  method DropOutranked(modes: set<ColorMode>, primary: seq<ColorMode>) returns (kept: set<ColorMode>)
    requires forall m :: m in primary ==> m in modes
    ensures forall m :: m in kept <==> m in modes && !(m in primary && Outranked(m, primary))
  {
    kept := modes;
    var i := 0;
    while i < |primary|
      invariant 0 <= i <= |primary|
      invariant forall m :: m in kept <==> m in modes && !(m in primary[..i] && Outranked(m, primary))
    {
      var mode := primary[i];
      assert primary[..i + 1] == primary[..i] + [mode];
      if mode != ColorTemp && ColorTemp in primary {
        kept := kept - {mode};
      } else if mode != Hs && Hs in primary && ColorTemp !in primary {
        kept := kept - {mode};
      }
      i := i + 1;
    }
    assert primary[..|primary|] == primary;
  }

  /** What the narrowing loop keeps is the reference supported set. */
  lemma NarrowingKeeps(modes: set<ColorMode>, base: set<ColorMode>)
    requires base == if HasColour(modes - {OnOff}) then modes - {OnOff, Brightness} else modes - {OnOff}
    ensures var primary := ColourOrder(base);
      forall m :: m in SupportedModes(modes) <==> m in base && !(|primary| > 1 && m in primary && Outranked(m, primary))
  {
  }

  class AmaranLight {
    const deviceId: Json
    const name: Json
    const nodeId: string
    const config: Entries
    const cctMin: int
    const cctMax: int
    var colorModes: set<ColorMode>
    var colorMode: ColorMode
    var isOn: bool
    var brightness: int
    var colorTemp: Option<int>
    var hsColor: Option<(int, int)>
    var rgbColor: Option<(int, int, int)>
    /** The requests sent to the controller, oldest first. */
    var requests: seq<Api.Call>

    function State(): LightState
      reads this`isOn, this`brightness, this`colorTemp, this`hsColor, this`rgbColor, this`colorMode
    {
      LightState(isOn, brightness, colorTemp, hsColor, rgbColor, colorMode)
    }

    /** The entity's invariant: an exclusive colour state over a single supported mode. */
    predicate Valid()
      reads this`isOn, this`brightness, this`colorTemp, this`hsColor, this`rgbColor, this`colorMode, this`colorModes
    {
      Exclusive(State()) && OnOff !in colorModes && |colorModes| <= 1
    }

    constructor (deviceId: Json, name: Json, nodeId: string, modes: set<ColorMode>, config: Entries)
      ensures this.deviceId == deviceId && this.name == name && this.nodeId == nodeId && this.config == config
      ensures colorModes == SupportedModes(modes)
      ensures colorMode == DefaultMode(colorModes)
      ensures State() == LightState(false, FullBrightness, None, None, None, colorMode)
      ensures cctMin == CctBound(config, "cct_min", 2000) && cctMax == CctBound(config, "cct_max", 10000)
      ensures requests == []
      ensures Valid()
    {
      var supported := NarrowModes(modes);
      this.deviceId := deviceId;
      this.name := name;
      this.nodeId := nodeId;
      this.config := config;
      colorModes := supported;
      if ColorTemp in supported {
        colorMode := ColorTemp;
      } else if Hs in supported {
        colorMode := Hs;
      } else if Rgb in supported {
        colorMode := Rgb;
      } else {
        colorMode := Brightness;
      }
      isOn := false;
      brightness := FullBrightness;
      colorTemp, hsColor, rgbColor := None, None, None;
      cctMin := CctBound(config, "cct_min", 2000);
      cctMax := CctBound(config, "cct_max", 10000);
      requests := [];
    }

    /** `color_temp_kelvin`: the colour temperature when it is set and positive. */
    function ColorTempKelvin(): (k: Option<int>)
      reads this
      ensures k.Some? <==> colorTemp.Some? && colorTemp.value > 0
      ensures k.Some? ==> k == colorTemp
      ensures Valid() && colorMode != ColorTemp ==> k.None?
    {
      if colorTemp.Some? && colorTemp.value > 0 then colorTemp else None
    }

    /** One request to the controller. */
    method Send(c: Api.Call)
      modifies this`requests
      ensures requests == old(requests) + [c]
    {
      requests := requests + [c];
    }

    /** One query to the controller and the reply it gives. */
    method Query(action: string, replies: map<string, Json>) returns (reply: Json)
      modifies this`requests
      ensures requests == old(requests) + [QueryCall(nodeId, action)]
      ensures reply == Reply(replies, action)
    {
      Send(QueryCall(nodeId, action));
      reply := if action in replies then replies[action] else Empty;
    }

    method TurnOn(kw: TurnOnArgs)
      modifies this
      ensures old(Valid()) ==> Valid()
      ensures var r := TurnOnEffect(old(State()), nodeId, cctMin, cctMax, kw);
        State() == r.state && requests == old(requests) + r.calls
      ensures colorModes == old(colorModes)
    {
      ghost var s0, base := State(), requests;
      var intensity := if brightness != 0 then BrightnessToIntensity(brightness) else FullIntensity;
      if kw.brightness.Some? {
        intensity := BrightnessToIntensity(kw.brightness.value);
        Send(IntensityCall(nodeId, intensity));
        brightness := kw.brightness.value;
      }
      assert intensity == TurnOnIntensity(s0, kw);
      ghost var s1, calls1 := State(), requests[|base|..];
      assert requests == base + calls1;
      ColourStage(kw, intensity);
      ghost var chosen := Chosen(kw, cctMin, cctMax);
      assert State() == if chosen.Some? then Apply(s1, chosen.value) else s1;
      if NoArgs(kw) {
        if brightness == 0 {
          brightness := FullBrightness;
          intensity := FullIntensity;
          Send(IntensityCall(nodeId, intensity));
        } else {
          Send(IntensityCall(nodeId, intensity));
        }
      }
      isOn := true;
    }

    /** Turn-on's colour step: the colour of highest priority is sent and adopted. */
    method ColourStage(kw: TurnOnArgs, intensity: int)
      modifies this`colorTemp, this`hsColor, this`rgbColor, this`colorMode, this`requests
      ensures var c := Chosen(kw, cctMin, cctMax);
        && State() == (if c.Some? then Apply(old(State()), c.value) else old(State()))
        && requests == old(requests) + (if c.Some? then [ColourCall(nodeId, c.value, intensity)] else [])
    {
      var newMode: Option<ColorMode> := None;
      if kw.kelvin.Some? && newMode.None? {
        var kelvin := Clamp(kw.kelvin.value, cctMin, cctMax);
        Send(SetCall(nodeId, "set_cct", [("cct", JInt(kelvin))]));
        colorTemp := Some(kelvin);
        newMode := Some(ColorTemp);
        hsColor := None;
        rgbColor := None;
      }
      if kw.hs.Some? && newMode.None? {
        var (hue, sat) := kw.hs.value;
        Send(SetCall(nodeId, "set_hsi", [("hue", JInt(hue)), ("sat", JInt(sat)), ("intensity", JInt(intensity))]));
        hsColor := kw.hs;
        newMode := Some(Hs);
        colorTemp := None;
        rgbColor := None;
      }
      if kw.rgb.Some? && newMode.None? {
        var (r, g, b) := kw.rgb.value;
        Send(SetCall(nodeId, "set_rgb", [("r", JInt(r)), ("g", JInt(g)), ("b", JInt(b)), ("intensity", JInt(intensity))]));
        rgbColor := kw.rgb;
        newMode := Some(Rgb);
        colorTemp := None;
        hsColor := None;
      }
      if newMode.Some? {
        colorMode := newMode.value;
      }
    }

    method TurnOff()
      modifies this
      ensures old(Valid()) ==> Valid()
      ensures var r := TurnOffEffect(old(State()), nodeId);
        State() == r.state && requests == old(requests) + r.calls
      ensures colorModes == old(colorModes)
    {
      Send(IntensityCall(nodeId, 0));
      isOn := false;
    }

    method Toggle(kw: TurnOnArgs)
      modifies this
      ensures old(Valid()) ==> Valid()
      ensures var r := ToggleEffect(old(State()), nodeId, cctMin, cctMax, kw);
        State() == r.state && requests == old(requests) + r.calls
      ensures colorModes == old(colorModes)
    {
      if isOn {
        TurnOff();
      } else {
        TurnOn(kw);
      }
    }

    /** The get_intensity stage of a poll. */
    method PollIntensity(replies: map<string, Json>) returns (v: Option<int>)
      modifies this`requests
      ensures requests == old(requests) + [QueryCall(nodeId, "get_intensity")]
      ensures v == PolledIntensity(replies)
    {
      var reply := Query("get_intensity", replies);
      var data := Api.ResponseData(reply);
      v := None;
      if data.Some? {
        v := ReadIntensity(data.value);
      }
    }

    /** The get_cct stage of a poll. */
    method PollCct(replies: map<string, Json>) returns (t: Option<int>)
      modifies this`requests
      ensures requests == old(requests) + [QueryCall(nodeId, "get_cct")]
      ensures PolledColour(ColorTemp, replies) == if t.Some? then Some(Kelvin(t.value)) else None
    {
      var reply := Query("get_cct", replies);
      var data := Api.ResponseData(reply);
      t := None;
      if data.Some? {
        t := ReadCct(data.value);
      }
    }

    /** The get_hsi stage of a poll. */
    method PollHsi(replies: map<string, Json>) returns (hs: Option<(int, int)>)
      modifies this`requests
      ensures requests == old(requests) + [QueryCall(nodeId, "get_hsi")]
      ensures PolledColour(Hs, replies) == if hs.Some? then Some(HueSat(hs.value.0, hs.value.1)) else None
    {
      var reply := Query("get_hsi", replies);
      var data := Api.ResponseData(reply);
      hs := None;
      if data.Some? {
        hs := ReadHs(data.value);
      }
    }

    /** The get_rgb stage of a poll. */
    method PollRgb(replies: map<string, Json>) returns (rgb: Option<(int, int, int)>)
      modifies this`requests
      ensures requests == old(requests) + [QueryCall(nodeId, "get_rgb")]
      ensures PolledColour(Rgb, replies) == if rgb.Some? then Some(Triple(rgb.value.0, rgb.value.1, rgb.value.2)) else None
    {
      var reply := Query("get_rgb", replies);
      var data := Api.ResponseData(reply);
      rgb := None;
      if data.Some? {
        rgb := ReadRgb(data.value);
      }
    }

    /**
     * The colour-temperature block of a poll. `p` is the progress so far,
     * and the requests already sent are `base` followed by its queries.
     */
    method CctStage(replies: map<string, Json>, mode: Option<ColorMode>, ghost p: Poll, ghost base: seq<Api.Call>,
                    ghost d: Decodings)
      returns (newMode: Option<ColorMode>, newTemp: Option<int>)
      requires d.ct == PolledColour(ColorTemp, replies)
      requires p.mode == mode && p.found.None?
      requires requests == base + QueryCalls(nodeId, p.queried)
      modifies this`requests
      ensures var q := PollStage(p, ColorTemp, colorModes, d);
        && newMode == q.mode && requests == base + QueryCalls(nodeId, q.queried)
        && Found(q.found, newTemp, None, None)
        && (q.found.Some? ==> q.mode == Some(ModeOf(q.found.value)))
    {
      newMode, newTemp := mode, None;
      if ColorTemp in colorModes && (newMode.None? || newMode == Some(ColorTemp)) {
        var t := PollCct(replies);
        QueryCallsConcat(nodeId, p.queried, [ColorTemp]);
        if t.Some? {
          newTemp := t;
          newMode := Some(ColorTemp);
        }
      }
    }

    /** The hue/saturation block of a poll; `t` is the colour temperature found before it. */
    method HsiStage(replies: map<string, Json>, mode: Option<ColorMode>, ghost p: Poll, ghost base: seq<Api.Call>,
                    ghost t: Option<int>, ghost d: Decodings)
      returns (newMode: Option<ColorMode>, newHs: Option<(int, int)>)
      requires d.hs == PolledColour(Hs, replies)
      requires p.mode == mode && Found(p.found, t, None, None)
      requires p.found.Some? ==> p.mode == Some(ModeOf(p.found.value))
      requires requests == base + QueryCalls(nodeId, p.queried)
      modifies this`requests
      ensures var q := PollStage(p, Hs, colorModes, d);
        && newMode == q.mode && requests == base + QueryCalls(nodeId, q.queried)
        && Found(q.found, t, newHs, None)
        && (q.found.Some? ==> q.mode == Some(ModeOf(q.found.value)))
    {
      newMode, newHs := mode, None;
      if Hs in colorModes && (newMode.None? || newMode == Some(Hs)) {
        var hs := PollHsi(replies);
        QueryCallsConcat(nodeId, p.queried, [Hs]);
        if hs.Some? {
          newHs := hs;
          newMode := Some(Hs);
        }
      }
    }

    /** The RGB block of a poll; `t` and `hs` are the colours found before it. */
    method RgbStage(replies: map<string, Json>, mode: Option<ColorMode>, ghost p: Poll, ghost base: seq<Api.Call>,
                    ghost t: Option<int>, ghost hs: Option<(int, int)>, ghost d: Decodings)
      returns (newMode: Option<ColorMode>, newRgb: Option<(int, int, int)>)
      requires d.rgb == PolledColour(Rgb, replies)
      requires p.mode == mode && Found(p.found, t, hs, None)
      requires p.found.Some? ==> p.mode == Some(ModeOf(p.found.value))
      requires requests == base + QueryCalls(nodeId, p.queried)
      modifies this`requests
      ensures var q := PollStage(p, Rgb, colorModes, d);
        && newMode == q.mode && requests == base + QueryCalls(nodeId, q.queried)
        && Found(q.found, t, hs, newRgb)
    {
      newMode, newRgb := mode, None;
      if Rgb in colorModes && (newMode.None? || newMode == Some(Rgb)) {
        var rgb := PollRgb(replies);
        QueryCallsConcat(nodeId, p.queried, [Rgb]);
        if rgb.Some? {
          newRgb := rgb;
          newMode := Some(Rgb);
        }
      }
    }

    /**
     * The colour part of a poll: keep to a supported current colour mode,
     * then run the three blocks in priority order.
     */
    method PollColourBlocks(replies: map<string, Json>)
      returns (newMode: Option<ColorMode>, newTemp: Option<int>, newHs: Option<(int, int)>, newRgb: Option<(int, int, int)>,
               ghost found: Option<Colour>)
      modifies this`requests
      ensures var p := PollColours(colorMode, colorModes, DecodingsOf(replies));
        && newMode == p.mode && found == p.found && Found(found, newTemp, newHs, newRgb)
        && requests == old(requests) + QueryCalls(nodeId, p.queried)
    {
      newMode := None;
      if colorMode == ColorTemp && ColorTemp in colorModes {
        newMode := Some(ColorTemp);
      } else if colorMode == Hs && Hs in colorModes {
        newMode := Some(Hs);
      } else if colorMode == Rgb && Rgb in colorModes {
        newMode := Some(Rgb);
      }
      ghost var base := requests;
      ghost var p := Poll(PreservedMode(colorMode, colorModes), None, []);
      assert newMode == p.mode && requests == base + QueryCalls(nodeId, p.queried);

      ghost var d := DecodingsOf(replies);
      newMode, newTemp := CctStage(replies, newMode, p, base, d);
      p := PollStage(p, ColorTemp, colorModes, d);
      newMode, newHs := HsiStage(replies, newMode, p, base, newTemp, d);
      p := PollStage(p, Hs, colorModes, d);
      newMode, newRgb := RgbStage(replies, newMode, p, base, newTemp, newHs, d);
      p := PollStage(p, Rgb, colorModes, d);
      found := p.found;
    }

    /**
     * The queries of a poll, before anything is stored: the intensity reading
     * and the colour blocks, with the requests they send.
     */
    method Gather(replies: map<string, Json>)
      returns (newBrightness: int, newIsOn: bool, newMode: Option<ColorMode>, newTemp: Option<int>,
               newHs: Option<(int, int)>, newRgb: Option<(int, int, int)>, ghost found: Option<Colour>)
      modifies this`requests
      ensures var v := PolledIntensity(replies);
        && newBrightness == (if v.Some? then IntensityToBrightness(v.value) else brightness)
        && newIsOn == (if v.Some? then v.value > 0 else isOn)
      ensures var p := PollColours(colorMode, colorModes, DecodingsOf(replies));
        && newMode == p.mode && found == p.found && Found(found, newTemp, newHs, newRgb)
        && requests == old(requests) + ([QueryCall(nodeId, "get_intensity")] + QueryCalls(nodeId, p.queried))
    {
      newBrightness, newIsOn := brightness, isOn;
      var v := PollIntensity(replies);
      if v.Some? {
        newBrightness := IntensityToBrightness(v.value);
        newIsOn := v.value > 0;
      }
      newMode, newTemp, newHs, newRgb, found := PollColourBlocks(replies);
      ghost var p := PollColours(colorMode, colorModes, DecodingsOf(replies));
      ConcatAssoc(old(requests), [QueryCall(nodeId, "get_intensity")], QueryCalls(nodeId, p.queried));
    }

    method Update(replies: map<string, Json>)
      modifies this
      ensures old(Valid()) ==> Valid()
      ensures var r := UpdateEffect(old(State()), colorModes, nodeId, replies);
        State() == r.state && requests == old(requests) + r.calls
      ensures colorModes == old(colorModes)
    {
      var newBrightness, newIsOn, newMode, newTemp, newHs, newRgb, found := Gather(replies);
      Commit(newBrightness, newIsOn, newMode, newTemp, newHs, newRgb, found);
    }

    /**
     * The end of a poll: the brightness and on/off state are stored, the
     * colour found is stored exclusively, and the mode settled on is adopted.
     */
    method Commit(newBrightness: int, newIsOn: bool, newMode: Option<ColorMode>,
                  newTemp: Option<int>, newHs: Option<(int, int)>, newRgb: Option<(int, int, int)>, ghost found: Option<Colour>)
      requires Found(found, newTemp, newHs, newRgb)
      requires found.Some? ==> newMode == Some(ModeOf(found.value))
      requires found.None? ==> newMode.None? || newMode == Some(colorMode)
      modifies this`brightness, this`isOn, this`colorTemp, this`hsColor, this`rgbColor, this`colorMode
      ensures var s1 := old(State()).(brightness := newBrightness, isOn := newIsOn);
        State() == if found.Some? then Apply(s1, found.value) else s1
      ensures old(Valid()) ==> Valid()
    {
      brightness := newBrightness;
      isOn := newIsOn;
      if newMode == Some(ColorTemp) && newTemp.Some? {
        colorTemp := newTemp;
        hsColor := None;
        rgbColor := None;
      } else if newMode == Some(Hs) && newHs.Some? {
        colorTemp := None;
        hsColor := newHs;
        rgbColor := None;
      } else if newMode == Some(Rgb) && newRgb.Some? {
        colorTemp := None;
        hsColor := None;
        rgbColor := newRgb;
      }
      if newMode.Some? {
        colorMode := newMode.value;
      }
    }
  }
}
