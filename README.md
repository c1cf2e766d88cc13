# Amaran lights for Home Assistant — a verified model

This project models the core of the Amaran integration for Home Assistant.
The integration drives Amaran lighting controllers over a websocket protocol.
The model covers four parts:

- **The request engine** (`AmaranAPI`). It builds the request envelope, keeps
  the socket, reconnects lazily and returns the `{}` failure sentinel. It
  paces calls at least 200 ms apart and counts request ids. Module `Api`
  holds a reference definition of one call (`SendStep`) and of a run of calls
  (`Run`), plus the class `AmaranApi` whose methods follow them.
- **Integration setup and the two services** (`async_setup_entry` in
  `__init__.py`). Setup initialises or refreshes the shared store, connects,
  and rebuilds the device registry from the device list. The
  `set_preset`/`set_quickshot` services forward a request to a registered
  light's node. This is module `Integration`.
- **Light platform setup** (`async_setup_entry` in `amaran_HA/light.py`). It
  fetches the device, quickshot and preset lists and skips groups. For each
  node it asks for the configuration, derives the colour modes, creates the
  light and registers it. A malformed reply raises part-way, and the model
  follows that. This is module `LightPlatform`, with the mode derivation in
  `ColorModes`.
- **The light entity** (`AmaranLight`). The constructor narrows the colour
  modes to one. `turn_on`, `turn_off` and `toggle` send requests and update
  the state optimistically. `update` polls the node and decodes loosely typed
  telemetry. Module `Light` gives each operation a reference definition over
  a `LightState` value (`TurnOnEffect`, `UpdateEffect`, ...), and the class
  `AmaranLight` implements it step by step. The payload decoders and the
  brightness/intensity scaling are in `Telemetry`.

The outside world is modelled as oracles:

- Everything a single `send_request` meets is one `Api.Wire` value: the
  clock, the connect result, the token, the send result and the decoded reply.
- A light records each request it sends (action, node id, arguments) in a
  `requests` log. It receives the controller's replies as a map from action to
  JSON. A missing entry is the `{}` sentinel.
- Platform setup receives the node-configuration replies as a map from node id.

JSON values are the `Json.Json` datatype. The model follows Python's rules for
them: truthiness, `dict.get`, `in`, iteration over a dict's keys or a string's
characters, and the `TypeError` that an unhashable dict key raises. The test
`reply and 'data' in reply` is modelled with its exceptions (`Api.DataLookupOf`).
For a truthy number or boolean, `in` raises. For a string containing "data", or
a list holding the string "data", the test passes and `reply['data']` then
raises. Platform setup has no `try`, so there these exceptions end setup. The
polls of a light and discovery catch them, so there they act as a reply
without a payload, except where discovery has already emptied the registry.

Scaling truncates rather than rounds. A polled intensity of 500 gives
brightness `int(500*255/1000)` = 127, where rounding would give 128
(`Telemetry.HalfIntensity`).

## Model

| member | source | states |
|---|---|---|
| Json.LookupSound | amaran_HA/light.py:481-483 | A key is found in a dict exactly when some entry carries it, and the value found is that entry's. |
| Json.GetFirst | __init__.py:222 | `dict.get(key, default)` is the value of the first entry carrying the key, and the default when no entry carries it. |
| Json.LowerMatches | amaran_HA/light.py:490-492 | For a lower-case name such as "hue" or "r", `key.lower()` equals it exactly when the key spells that name with each letter in either ASCII case. |
| Api.Envelope | __init__.py:325-338 | The envelope carries version 2, type "request", client_id, the current request_id, action and token. `node_id` appears only when it is non-empty, and `args` only when it is non-empty. |
| Api.PacedTime | __init__.py:310-315 | The recorded time is at least 200 ms after the previous record and no earlier than the clock. Without a wait it is the clock reading. |
| Api.SendStep | __init__.py:308-349 | An envelope goes out exactly when there is (or re)connection, a non-empty token and a completed send. Only then does request_id advance, by one. On a connect failure, an empty token or a fault, the reply is `{}`. A send or receive fault drops the socket. The time is always re-recorded. |
| Api.RunRequestIds | __init__.py:325-345 | Over any sequence of calls the envelopes carry consecutive request ids from the starting one. The id advances by exactly the number sent. |
| Api.RunPacing | __init__.py:311-315 | After n calls the recorded time has advanced by at least n × 200 ms. |
| Api.UnreachableGivesSentinel | __init__.py:317-319 | With no socket and a failing connect, the call returns `{}`, sends nothing, and keeps the request id. |
| Api.DataLookupOf | amaran_HA/light.py:37 | A falsy reply, the `{}` sentinel among them, has no payload. A dict has one exactly when it has a 'data' key, and the payload is that key's value. |
| Api.DataLookupRaises | amaran_HA/light.py:37-51 | The 'data' test raises exactly for a truthy number or boolean. Indexing raises exactly for a string containing "data" or a list holding "data". A dict never raises. |
| Api.ResponseDataFirst | amaran_HA/light.py:401-402 | Where exceptions are caught, a dict reply's payload is the value of its first 'data' entry, and it has none without such an entry. |
| Api.AmaranApi.constructor | __init__.py:260-271 | A new client stores host, port and key. It has client_id 1, request_id 1, no socket, time 0, and has sent nothing. |
| Api.AmaranApi.Connect | __init__.py:273-286 | The result is the connect outcome, and a socket is held afterwards if one was before or the connect succeeded. |
| Api.AmaranApi.SendRequest | __init__.py:308-349 | The new session, the log of sent envelopes and the returned reply are exactly those of `SendStep` for this call. |
| Api.AmaranApi.GetDeviceList | __init__.py:351-353 | One call of "get_device_list" without node id or arguments. |
| Api.AmaranApi.GetNodeConfig | __init__.py:355-357 | One call of "get_node_config" carrying the node id. |
| Api.AmaranApi.GetQuickshotList | __init__.py:359-361 | One call of "get_quickshot_list" without node id or arguments. |
| Api.AmaranApi.GetPresetList | __init__.py:363-365 | One call of "get_preset_list" without node id or arguments. |
| Api.AmaranApi.Close | __init__.py:367-371 | Afterwards no socket is held. |
| ColorModes.InitialModes | amaran_HA/light.py:65-73 | The starting set holds ONOFF and BRIGHTNESS. It holds COLOR_TEMP iff `cct_support` is truthy, and both HS and RGB iff `rgb_support` or `hsi_support` is. |
| ColorModes.SupportedModes | amaran_HA/light.py:109-139 | The narrowed set never holds ONOFF, is a subset of the given set and has at most one mode. COLOR_TEMP wins over HS, HS over RGB, and BRIGHTNESS is kept only without a colour mode. It is empty only when nothing but ONOFF was given. |
| ColorModes.DefaultMode | amaran_HA/light.py:143-150 | The default mode is the supported colour mode when there is one, and BRIGHTNESS otherwise. |
| ColorModes.SetupModesSingle | amaran_HA/light.py:65-139 | Every light platform setup creates supports exactly one mode: COLOR_TEMP with `cct_support`, else HS with `rgb_support`/`hsi_support`, else BRIGHTNESS. It is never RGB. |
| Telemetry.IntensityToBrightness | amaran_HA/light.py:405 | `int(v*255/1000)` truncates: for v ≥ 0 the result is the floor of v·255/1000, and 0..1000 maps into 0..255. |
| Telemetry.BrightnessToIntensity | amaran_HA/light.py:270 | `int(b*1000/255)`: for b ≥ 0 the floor of b·1000/255, and 0..255 maps into 0..1000. |
| Telemetry.BrightnessRoundTrip | amaran_HA/light.py:263-270 | A brightness sent as an intensity (line 270) and polled back (line 405) returns as itself or one less. |
| Telemetry.BrightnessOneReadsBackZero | amaran_HA/light.py:270 | Brightness 1 is sent as intensity 3, which polls back as brightness 0: the round trip loses the light. |
| Telemetry.HalfIntensity | amaran_HA/light.py:405 | Intensity 500 polls as brightness 127. |
| Telemetry.FirstNumber | amaran_HA/light.py:415-419 | The scan finds the first numeric value of a dict, and finds nothing exactly when no value is numeric. |
| Telemetry.ScanNumber | amaran_HA/light.py:415-419 | The loop with `break` computes `FirstNumber`. |
| Telemetry.IntensityOf | amaran_HA/light.py:401-423 | A numeric payload is the intensity. A dict's numeric 'intensity' is the intensity. A dict without 'intensity' reads as 0. A dict whose 'intensity' is not numeric yields its first numeric value (`FirstNumber`), or nothing when it has none. Anything else decodes to nothing. |
| Telemetry.ReadIntensity | amaran_HA/light.py:401-423 | The decoding method computes `IntensityOf`. |
| Telemetry.CctOf | amaran_HA/light.py:444-465 | A numeric payload is the temperature. A dict's numeric 'cct' is the temperature. Lacking one, the result is the dict's first numeric value (`FirstNumber`). Nothing decodes exactly when there is no numeric value to take. |
| Telemetry.ReadCct | amaran_HA/light.py:444-465 | The decoding method computes `CctOf`. |
| Telemetry.HsScan | amaran_HA/light.py:486-499 | The case-insensitive scan finds both hue and saturation exactly when the dict has a numeric value under each name. What it finds comes from such an entry. |
| Telemetry.ScanHs | amaran_HA/light.py:486-499 | The scan loop with `break` computes `HsScan`. |
| Telemetry.HsOf | amaran_HA/light.py:477-507 | A scalar v decodes as (v, 100). A dict with 'hue' and 'sat' decodes only when both are numeric, and then to their values. Otherwise the case-insensitive scan must find both, and the pair comes from a hue entry and a saturation entry. Anything else decodes to nothing. |
| Telemetry.ReadHs | amaran_HA/light.py:477-507 | The decoding method computes `HsOf`. |
| Telemetry.RgbScan | amaran_HA/light.py:528-545 | The scan finds all three components exactly when each has an integer value under its name, case-insensitively. |
| Telemetry.RgbScanOrigin | amaran_HA/light.py:528-545 | Each component the scan finds is the value of an entry under that component's name, case-insensitively. |
| Telemetry.ScanRgb | amaran_HA/light.py:528-545 | The scan loop with `break` computes `RgbScan`. |
| Telemetry.RgbOf | amaran_HA/light.py:519-552 | A scalar v decodes as grey (v, v, v). A dict with 'r', 'g' and 'b' decodes exactly when all three are integers, and then to those three values. A dict without all three falls back to the scan, and each component comes from an entry under its name. Anything else decodes to nothing. |
| Telemetry.ReadRgb | amaran_HA/light.py:519-552 | The decoding method computes `RgbOf`. |
| Light.Apply | amaran_HA/light.py:561-572 | Adopting a colour stores its value (kelvin, hue/saturation or RGB), clears the other two values and sets the matching mode. The result is exclusive. Power and brightness are untouched. |
| Light.Clamp | amaran_HA/light.py:282 | `max(lo, min(hi, k))` lies in lo..hi and keeps k when it is in range. With inverted bounds it is lo. |
| Light.Chosen | amaran_HA/light.py:279-335 | A colour is applied exactly when one of the three colour attributes was given. |
| Light.TurnOnEffect | amaran_HA/light.py:257-360 | The light ends on. A given brightness sends `set_intensity` first and is stored. Only the colour of highest priority (clamped kelvin, then hue/sat, then RGB) is sent, last, and adopted, clearing the others, with the mode following. Without keywords one `set_intensity` is sent at the current intensity, or at 1000 with brightness 255 when brightness is 0. Without a colour, colours and mode are unchanged. Exclusivity is preserved. |
| Light.TurnOffEffect | amaran_HA/light.py:362-372 | Exactly one `set_intensity` 0 is sent, and the light is off. Nothing else changes. |
| Light.ToggleEffect | amaran_HA/light.py:374-381 | Toggle is turn-off when on and turn-on with the same arguments when off. The power state flips. |
| Light.PolledColour | amaran_HA/light.py:436-554 | A poll of a colour mode decodes the reply's payload with `CctOf`, `HsOf` or `RgbOf`, giving a colour of that mode. A reply without a payload gives nothing. |
| Light.ColourOrder | amaran_HA/light.py:121-127 | The primary modes are exactly the colour modes present, in strictly increasing rank: COLOR_TEMP, then HS, then RGB. |
| Light.PollColours | amaran_HA/light.py:427-554 | A supported current colour mode is the only one queried, and its decoding is what is found. A found colour is the decoding of a supported mode, and the mode becomes that one. When nothing is found, the mode settled on is the preserved current one. |
| Light.PollOrder | amaran_HA/light.py:427-513 | Without a supported current colour mode, the poll queries a prefix of the supported colour modes in priority order. A queried mode decodes exactly when it is the last one queried and a colour is found, so the first supported mode that decodes is adopted. |
| Light.PollStops | amaran_HA/light.py:427-513 | Without a supported current colour mode, the poll stops at the mode that decoded. It finds nothing only when it has queried every supported colour mode and none of them decoded. |
| Light.QueryCalls | amaran_HA/light.py:440-518 | The poll sends one `get_cct`/`get_hsi`/`get_rgb` query per queried mode, in order. |
| Light.UpdateEffect | amaran_HA/light.py:383-579 | `get_intensity` is sent first, followed by one query per mode the colour poll queries. A decoded intensity sets brightness (truncated) and power (intensity > 0), and otherwise both are kept. A found colour is adopted exclusively. With none, colours and mode are unchanged. The mode changes only to a supported colour mode. |
| Light.ReplayExclusive | amaran_HA/light.py:257-579 | Over any sequence of turn-on, turn-off, toggle and poll events, a light never holds two colour values or one that disagrees with its mode. |
| Light.ReplayAddressed | amaran_HA/light.py:257-579 | Every request a light sends, over any sequence of events, carries its own node id. |
| Light.PollsKeepModeSupported | amaran_HA/light.py:427-579 | Polls and turn-offs keep a light whose mode is supported (or BRIGHTNESS) in a supported mode (or BRIGHTNESS). |
| Light.PollHalfIntensity | amaran_HA/light.py:401-406 | Polling intensity 500 gives brightness 127 and on, and then queries the colour temperature. |
| Light.PollIntensityKeyMissing | amaran_HA/light.py:407-412 | A dict payload without 'intensity' switches the light off with brightness 0, even when it holds another number. |
| Light.PollSwitchesToCct | amaran_HA/light.py:429-467 | A light left in HS but now supporting only COLOR_TEMP adopts a polled temperature and drops its hue/saturation. |
| Light.TurnOnClamps | amaran_HA/light.py:279-293 | A requested 12000 K on a 2000-10000 K light is sent and stored as 10000 K. |
| Light.TurnOnOtherOnly | amaran_HA/light.py:257-358 | Turn-on with only unrecognised keywords sends nothing and only switches the light on. |
| Light.CctBound | amaran_HA/light.py:157-158 | The bound is the configured number when present, and the default (2000 or 10000) when absent. |
| Light.NarrowModes | amaran_HA/light.py:109-139 | The constructor's narrowing steps compute `SupportedModes`. |
| Light.DropOutranked | amaran_HA/light.py:131-138 | The removal loop keeps exactly the modes that no other primary mode outranks. |
| Light.AmaranLight.constructor | amaran_HA/light.py:94-158 | A new light keeps its ids, name and configuration. Its modes are `SupportedModes` of those given, its mode is the default one, and it is off at brightness 255 without colours. It has the configured or default kelvin bounds and has sent nothing. |
| Light.AmaranLight.ColorTempKelvin | amaran_HA/light.py:188-190 | The kelvin value is reported only when set and positive. A light keeping its invariant reports none outside COLOR_TEMP mode. |
| Light.AmaranLight.TurnOn | amaran_HA/light.py:257-360 | The new state and the requests appended are those of `TurnOnEffect`. The invariant is kept and the supported modes are unchanged. |
| Light.AmaranLight.ColourStage | amaran_HA/light.py:279-335 | The three guarded colour blocks send and adopt exactly the colour `Chosen` picks. |
| Light.AmaranLight.TurnOff | amaran_HA/light.py:362-372 | The new state and the requests appended are those of `TurnOffEffect`. The invariant is kept. |
| Light.AmaranLight.Toggle | amaran_HA/light.py:374-381 | The new state and the requests appended are those of `ToggleEffect`. The invariant is kept. |
| Light.AmaranLight.PollIntensity | amaran_HA/light.py:396-425 | One `get_intensity` query is sent, and its reply is decoded as `IntensityOf` prescribes. |
| Light.AmaranLight.PollCct | amaran_HA/light.py:437-467 | One `get_cct` query is sent, and the temperature found is the poll's decoding. |
| Light.AmaranLight.PollHsi | amaran_HA/light.py:470-509 | One `get_hsi` query is sent, and the hue/saturation found is the poll's decoding. |
| Light.AmaranLight.PollRgb | amaran_HA/light.py:512-554 | One `get_rgb` query is sent, and the RGB found is the poll's decoding. |
| Light.AmaranLight.CctStage | amaran_HA/light.py:437-467 | The colour-temperature block takes the poll one stage further, as `PollStage` defines. |
| Light.AmaranLight.HsiStage | amaran_HA/light.py:470-509 | The hue/saturation block takes the poll one stage further, as `PollStage` defines. |
| Light.AmaranLight.RgbStage | amaran_HA/light.py:512-554 | The RGB block takes the poll one stage further, as `PollStage` defines. |
| Light.AmaranLight.PollColourBlocks | amaran_HA/light.py:427-554 | Mode preservation and the three blocks compute `PollColours`, sending one query per queried mode. |
| Light.AmaranLight.Gather | amaran_HA/light.py:396-554 | The queries of a poll: the intensity decoding sets the brightness and power to store, and the colour blocks compute `PollColours`, sending `get_intensity` and then one query per queried mode. |
| Light.AmaranLight.Commit | amaran_HA/light.py:556-579 | The final assignments store brightness and power and adopt the colour found exclusively. With none, colours and mode are kept. |
| Light.AmaranLight.Update | amaran_HA/light.py:383-579 | The new state and the requests appended are those of `UpdateEffect`. The invariant is kept. |
| Integration.DomainData.constructor | __init__.py:81-90 | A new store holds the given host, port and key, with no devices, quickshots or presets and no client. |
| Integration.SetupStore | __init__.py:80-97 | On a fresh store the collections start empty. On an existing one only host, port and key are overwritten. |
| Integration.Reach | __init__.py:221-224 | Discovery gets through every element before the first one it raises at: a non-dict, or a truthy unhashable id. |
| Integration.RegistryKeys | __init__.py:219-225 | The registry's ids are exactly the truthy `device_id`s of the descriptions. |
| Integration.RegistryLast | __init__.py:221-224 | Each id is filed with the last description carrying it. |
| Integration.DiscoveryCases | __init__.py:218-224 | A falsy reply, a dict without 'data' and a truthy number keep the registry. A dict with 'data' replaces the registry with the one built from its payload. A string or list that passes the 'data' test empties the registry before indexing raises. |
| Integration.DiscoverDevices | __init__.py:216-230 | The registry becomes `Discovery` of the reply: replaced wholesale from a payload, up to an exception, kept when there is none or the test raises, and emptied when indexing raises. |
| Integration.SetupEntry | __init__.py:79-230 | The store is set up and a fresh client is stored in it, and the result is the connect outcome. On failure nothing is sent and the devices are untouched. On success the client has made its three requests in order, and discovery has run on the device-list reply. |
| Integration.QueryController | __init__.py:164-217 | The two quickshot-list requests (service schema and options) and the device-list request run in that order. The device list returned is the third reply. |
| Integration.Route | __init__.py:119-132 | A missing parameter or device id ends the call. An unknown device id ends the call. A registered light is forwarded to with its node id. A discovered description, which has no node id, is not. |
| Integration.SetPreset | __init__.py:117-133 | Exactly one `set_preset` request with the light's node id and `preset_id` is sent when `Route` forwards, and nothing otherwise. |
| Integration.SetQuickshot | __init__.py:146-162 | Exactly one `set_quickshot` request with the light's node id and `quickshot_id` is sent when `Route` forwards, and nothing otherwise. |
| LightPlatform.JudgeFacts | amaran_HA/light.py:52-88 | A group element is skipped before any request. A node configuration is requested exactly for a non-group dict with an id and a string node_id. An element creates a light only with a non-group hashable id, a name, and a dict configuration from its node. Any other skip is a node whose reply had no payload; a node reply whose 'data' test raises ends setup. |
| LightPlatform.FoldHaltPersists | amaran_HA/light.py:52-90 | Once an element raises, the elements after it change nothing. |
| LightPlatform.SkipsChangeNothing | amaran_HA/light.py:52-55 | A skip that made no request leaves setup's progress as if the element were absent. |
| LightPlatform.GroupsChangeNothing | amaran_HA/light.py:54-55 | Inserting a group element anywhere in the device list changes nothing setup does. |
| LightPlatform.FoldAdmissions | amaran_HA/light.py:58-88 | Each light created had its node's configuration requested, and comes from one of the elements. |
| LightPlatform.PlanAdmissions | amaran_HA/light.py:52-88 | Every light created has a non-group hashable id. Its node's configuration was requested, and no more lights are created than requests made. |
| LightPlatform.RegisteredLightsRoute | amaran_HA/light.py:88 | A light registered under a device id (the last one with that id) is what the services forward to, with its node id. |
| LightPlatform.RegisterKeeps | amaran_HA/light.py:88 | Registration adds exactly the created lights' ids and leaves every other entry of the store as it was. |
| LightPlatform.QuickshotPairsDefined | amaran_HA/light.py:42-44 | The quickshot comprehension raises exactly when some element is not a dict with a hashable 'id' and a 'name'. |
| LightPlatform.QuickshotPairsKeys | amaran_HA/light.py:44 | The table's ids are exactly the elements' ids. |
| LightPlatform.SetupRunStops | amaran_HA/light.py:34-39 | Setup stops after its first request, changing nothing, exactly when the device-list reply has no payload. A device-list reply whose 'data' test raises also ends setup there, as an exception. A setup that does not finish adds no entity. |
| LightPlatform.SetupRunOrder | amaran_HA/light.py:36-46 | Once the device list passes its test, setup requests the quickshot list next. A setup that finishes has requested the preset list third. |
| LightPlatform.ListRepliesRead | amaran_HA/light.py:41-48 | A falsy list reply, or a dict without 'data', keeps the stored quickshots and presets. A dict with 'data' gives the table built from it and the new presets. A truthy number raises in the 'data' test. |
| LightPlatform.Admitting | amaran_HA/light.py:50-88 | After the lists, the device-list loop never reports a missing device list, adds lights only when it finishes, keeps the stored lists, and follows the three list requests. |
| LightPlatform.AdmittingAdded | amaran_HA/light.py:50-88 | The lights the loop hands over have non-group hashable ids, and each one's node configuration was requested. |
| LightPlatform.NodeCallsOf | amaran_HA/light.py:58 | One `get_node_config` request per queried node, in order. |
| LightPlatform.SetupRunAdded | amaran_HA/light.py:52-90 | Every light handed to the host has a non-group hashable id, and its node's configuration was requested. |
| LightPlatform.AdmitOne | amaran_HA/light.py:52-88 | One element is treated as `Judge` says. A created light is fresh, built as the constructor prescribes, and registered under its id. |
| LightPlatform.ExtendParts | amaran_HA/light.py:52-88 | One more verdict appends at most one admission and one node request, and registers an admitted light under its id. |
| LightPlatform.BuiltExtend | amaran_HA/light.py:78-86 | A light built for one more admission extends the lights built so far. |
| LightPlatform.Advance | amaran_HA/light.py:52-88 | One loop turn extends the registry, the requests made and the lights built, as `Extend` says. |
| LightPlatform.AdmitAll | amaran_HA/light.py:51-88 | The loop registers, queries and builds exactly as `PlanOf` says, up to the first element that raises. |
| LightPlatform.StoreQuickshots | amaran_HA/light.py:41-44 | A quickshot-list payload rebuilds the table, a reply without one keeps it, and a raise in the test or the comprehension is reported as failure with the table kept. |
| LightPlatform.StorePresets | amaran_HA/light.py:46-48 | A preset-list payload replaces the presets, a reply without one keeps them, and a raise in the test is reported as failure with the presets kept. |
| LightPlatform.SetupLights | amaran_HA/light.py:26-90 | Outcome, requests, registry, quickshots and presets are those of `SetupRun`. The lights built match the admissions one by one, and each supports exactly one mode. |

## Left out

- The token generator (`generate_token`, AES-256-GCM over the key, `os.urandom`, base64) is an oracle: `Wire.token`, empty on failure.
- The websocket, `json.dumps` and `json.loads` are oracles: `Wire.connectOk`, `Wire.sendOk`, `Wire.reply`. Replies to the light and to platform setup are given as maps.
- `asyncio.Lock`, `asyncio.sleep` and the floating-point clock are not modelled. Pacing uses an integer millisecond clock with a non-negative oversleep (`Wire.slack`). Concurrency between calls is not modelled.
- Numbers are integers only. Floats (fractional telemetry, `int()` on float hue/saturation) are not modelled. Python booleans count as numbers in `IsNumber`, as they do with `isinstance(x, int)`.
- Telemetry.IntensityToBrightness, Telemetry.BrightnessToIntensity: the scaling is exact integer arithmetic here. The source divides in floating point (`v*255/1000`, `b*1000/255`), so above 2^53 it loses precision, and past the float range it raises `OverflowError`, which the update's try/except catches. The model states neither.
- The mired getters (`color_temp`, `min_mireds`, `max_mireds`) call a Home Assistant conversion that is not part of this model.
- The plain getters (`name`, `unique_id`, `is_on`, `brightness`, `hs_color`, `rgb_color`, `color_mode`, `min_color_temp_kelvin`, `max_color_temp_kelvin`) are the class's fields themselves.
- `extra_state_attributes` only formats display data from the store, and is not modelled.
- Home Assistant lifecycle code is not modelled: `async_setup`, `async_unload_entry`, forwarding to platforms, service registration and voluptuous schemas, `update_before_add`, and `async_write_ha_state`. The result of `get_available_quickshots` only feeds the schema. Only its request to the controller is modelled (`Integration.QueryController`).
- The store's `websocket`, `scenes` and `services` slots are never read by the core and are left out.
- config_flow.py and amaran_HA/get_ids.py are not part of this model.
- Logging is left out.
- Api.AmaranApi.Close: the model always ends without a socket. In the source, when `websocket.close()` raises, `self.websocket` keeps the old handle. Close's only caller is unload, which is lifecycle code and is not modelled.
- LightPlatform.Judge: a `node_id` that is not a string ends setup in the model, while the source would pass it on to the request and the entity.
- Integration.Registry: Python's equality of `True` and `1` as dict keys is not modelled, so such ids are distinct keys.
- Light.CctBound: a configured bound that is not a number is replaced by the default, since the model's bounds are integers.
- Light.AmaranLight: the entity holds no `AmaranAPI`. Its requests go into its own `requests` log, and the replies it receives are a parameter of each poll. The platform's separate client (`AmaranAPI(...)` at amaran_HA/light.py:33) is likewise modelled by its request log (`LightPlatform.SetupLights`'s `calls`).
- Integration.SetupEntry: an exception raised by discovery is caught in the source. Here the registry is left as built up to the raising element, which is what the source's in-place update leaves too.
- Json.Lookup: a decoded object with a repeated key yields its first value here, while `json.loads` keeps the last one. Controller replies are taken to have distinct keys.
