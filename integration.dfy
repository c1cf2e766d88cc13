/**
 * The integration's shared store and its entry setup (__init__.py): the
 * per-domain data store, the discovery of devices from the controller's
 * device list, and the `set_preset` / `set_quickshot` services that forward
 * a request to the node behind a registered light.
 */
module Integration {
  import opened Wrappers
  import opened Json
  import Api

  /**
   * What `devices` holds under an id: the device description discovery
   * stored, or a light entity platform setup registered, seen through the
   * node id the services read from it.
   */
  datatype Entry = Described(device: Json) | LightEntity(nodeId: string)

  /** The domain's slot in `hass.data`. */
  class DomainData {
    var host: string
    var port: int
    var apiKey: string
    var devices: map<Json, Entry>
    var quickshots: map<Json, Json>
    var presets: Json
    var api: Api.AmaranApi?

    constructor (host: string, port: int, apiKey: string)
      ensures this.host == host && this.port == port && this.apiKey == apiKey
      ensures devices == map[] && quickshots == map[] && presets == Empty && api == null
    {
      this.host := host;
      this.port := port;
      this.apiKey := apiKey;
      devices := map[];
      quickshots := map[];
      presets := Empty;
      api := null;
    }
  }

  /** The host's data dictionary, reduced to whether this domain has a slot in it. */
  class Hass {
    var domainData: DomainData?

    constructor ()
      ensures domainData == null
    {
      domainData := null;
    }
  }

  /**
   * Entry setup's store initialisation: a first setup creates the slot with
   * empty collections; a later one only replaces the connection settings
   * and keeps everything discovered or registered so far.
   */
  method SetupStore(hass: Hass, host: string, port: int, apiKey: string)
    modifies hass, hass.domainData
    ensures hass.domainData != null
    ensures hass.domainData.host == host && hass.domainData.port == port && hass.domainData.apiKey == apiKey
    ensures old(hass.domainData) == null ==>
      && fresh(hass.domainData)
      && hass.domainData.devices == map[]
      && hass.domainData.quickshots == map[]
      && hass.domainData.presets == Empty
      && hass.domainData.api == null
    ensures old(hass.domainData) != null ==>
      && hass.domainData == old(hass.domainData)
      && hass.domainData.devices == old(hass.domainData.devices)
      && hass.domainData.quickshots == old(hass.domainData.quickshots)
      && hass.domainData.presets == old(hass.domainData.presets)
      && hass.domainData.api == old(hass.domainData.api)
  {
    if hass.domainData == null {
      hass.domainData := new DomainData(host, port, apiKey);
    } else {
      hass.domainData.host := host;
      hass.domainData.port := port;
      hass.domainData.apiKey := apiKey;
    }
  }

  /** The id discovery files a device description under: its 'device_id', None when absent. */
  function DeviceIdOf(es: Entries): Json
  {
    Get(es, "device_id", JNull)
  }

  /**
   * Whether discovery raises at an element: one that is not a dict has no
   * `get`, and a truthy id that is a list or a dict cannot be a key.
   */
  predicate Halts(item: Json)
  {
    !item.JObj? || (Truthy(DeviceIdOf(item.entries)) && !Hashable(DeviceIdOf(item.entries)))
  }

  /** How many elements discovery gets through: up to the first one it raises at. */
  function Reach(items: seq<Json>): (n: nat)
    ensures n <= |items|
    ensures forall i :: 0 <= i < n ==> !Halts(items[i])
    ensures n < |items| ==> Halts(items[n])
  {
    if |items| == 0 || Halts(items[0]) then 0
    else
      var n := Reach(items[1..]);
      assert forall i :: 1 <= i < n + 1 ==> items[i] == items[1..][i - 1];
      n + 1
  }

  /** The registry built from descriptions, in order: each one with a truthy id is filed under it. */
  function RegistryOf(items: seq<Json>): map<Json, Entry>
    requires forall i :: 0 <= i < |items| ==> items[i].JObj?
  {
    if |items| == 0 then map[]
    else
      var r := RegistryOf(items[..|items| - 1]);
      var item := items[|items| - 1];
      var id := DeviceIdOf(item.entries);
      if Truthy(id) then r[id := Described(item)] else r
  }

  /** The registry a device-list payload leads to, including what is left when iterating it raises part-way. */
  function Registry(payload: Json): map<Json, Entry>
  {
    match Elements(payload)
    case None => map[]
    case Some(items) => RegistryOf(items[..Reach(items)])
  }

  /**
   * The registry after discovery has seen a device-list reply: a reply with
   * a payload replaces it wholesale. A reply without one, or one whose
   * 'data' test raises, leaves it as it was. A string or list that passes
   * the test empties it, and then indexing it raises.
   */
  function Discovery(devices: map<Json, Entry>, reply: Json): map<Json, Entry>
  {
    match Api.DataLookupOf(reply)
    case Absent => devices
    case InRaises => devices
    case IndexRaises => map[]
    case Present(payload) => Registry(payload)
  }

  /** Discovery by the shape of the reply: which replies keep, replace or empty the registry. */
  lemma DiscoveryCases(devices: map<Json, Entry>, reply: Json)
    ensures !Truthy(reply) || (reply.JObj? && !HasKey(reply.entries, "data")) ==> Discovery(devices, reply) == devices
    ensures reply.JObj? && HasKey(reply.entries, "data") ==>
      Discovery(devices, reply) == Registry(Lookup(reply.entries, "data").value)
    ensures IsNumber(reply) && Truthy(reply) ==> Discovery(devices, reply) == devices
    ensures reply.JStr? && Occurs("data", reply.s) ==> Discovery(devices, reply) == map[]
    ensures reply.JArr? && JStr("data") in reply.items ==> Discovery(devices, reply) == map[]
  {
    Api.DataLookupRaises(reply);
  }

  /** The ids in a registry are exactly the truthy ids of its descriptions. */
  lemma {:induction false} RegistryKeys(items: seq<Json>)
    requires forall i :: 0 <= i < |items| ==> items[i].JObj?
    ensures forall k :: k in RegistryOf(items) <==>
      exists i :: 0 <= i < |items| && k == DeviceIdOf(items[i].entries) && Truthy(k)
  {
    if |items| > 0 {
      var n := |items| - 1;
      var p := items[..n];
      assert forall i :: 0 <= i < n ==> p[i] == items[i];
      RegistryKeys(p);
    }
  }

  /** Each id in a registry is filed with the last description carrying it. */
  lemma {:induction false} RegistryLast(items: seq<Json>, k: Json)
    requires forall i :: 0 <= i < |items| ==> items[i].JObj?
    requires k in RegistryOf(items)
    ensures Truthy(k)
    ensures exists i ::
      && 0 <= i < |items| && k == DeviceIdOf(items[i].entries) && RegistryOf(items)[k] == Described(items[i])
      && forall j :: i < j < |items| ==> DeviceIdOf(items[j].entries) != k
  {
    var n := |items| - 1;
    var p := items[..n];
    assert forall i :: 0 <= i < n ==> p[i] == items[i];
    var id := DeviceIdOf(items[n].entries);
    if Truthy(id) && k == id {
      assert RegistryOf(items)[k] == Described(items[n]);
    } else {
      assert k in RegistryOf(p);
      RegistryLast(p, k);
      var i :| 0 <= i < n && k == DeviceIdOf(p[i].entries) && RegistryOf(p)[k] == Described(p[i])
        && forall j :: i < j < n ==> DeviceIdOf(p[j].entries) != k;
      assert k == DeviceIdOf(items[i].entries) && RegistryOf(items)[k] == Described(items[i]);
    }
  }

  /** Discovery over a device-list reply: `devices` becomes `Discovery` of the reply. */
  method DiscoverDevices(data: DomainData, reply: Json)
    modifies data`devices
    ensures data.devices == Discovery(old(data.devices), reply)
  {
    var listed := Api.DataLookupOf(reply);
    if listed.Absent? || listed.InRaises? {
      return;
    }
    data.devices := map[];
    if listed.IndexRaises? {
      return;
    }
    var elements := Elements(listed.payload);
    if elements.None? {
      return;
    }
    var items := elements.value;
    ghost var n := Reach(items);
    var i := 0;
    while i < |items|
      invariant 0 <= i <= n
      invariant data.devices == RegistryOf(items[..i])
    {
      var item := items[i];
      if !item.JObj? {
        break;
      }
      var id := Get(item.entries, "device_id", JNull);
      if Truthy(id) {
        if !Hashable(id) {
          break;
        }
        data.devices := data.devices[id := Described(item)];
      }
      assert items[..i + 1][..i] == items[..i];
      i := i + 1;
    }
  }

  /**
   * Entry setup: the store is initialised, a client is created and stored,
   * and once it connects the two quickshot-list requests of the service
   * schema and the device-list request go out over one session, the reply
   * to the last one feeding discovery. A failed connection ends setup.
   */
  method SetupEntry(hass: Hass, host: string, port: int, apiKey: string, connectOk: bool,
                    schemaWire: Api.Wire, optionsWire: Api.Wire, deviceListWire: Api.Wire)
    returns (ok: bool, deviceList: Json)
    modifies hass, hass.domainData
    ensures hass.domainData != null && hass.domainData.api != null && fresh(hass.domainData.api)
    ensures old(hass.domainData) != null ==> hass.domainData == old(hass.domainData)
    ensures hass.domainData.host == host && hass.domainData.port == port && hass.domainData.apiKey == apiKey
    ensures ok == connectOk
    ensures var prior := if old(hass.domainData) == null then map[] else old(hass.domainData.devices);
      hass.domainData.devices == if ok then Discovery(prior, deviceList) else prior
    ensures var api := hass.domainData.api;
      && api.host == host && api.port == port && api.apiKey == apiKey
      && (!ok ==> api.State() == Api.InitialSession && api.sent == [] && api.calls == [])
      && (ok ==> SessionAfter(api, schemaWire, optionsWire, deviceListWire, deviceList))
  {
    SetupStore(hass, host, port, apiKey);
    var data := hass.domainData;
    var api := new Api.AmaranApi(data.host, data.port, data.apiKey);
    data.api := api;
    var connected := api.Connect(connectOk);
    if !connected {
      return false, Empty;
    }
    assert api.State() == Api.Session(true, 1, 0) && api.sent == [] && api.calls == [];
    deviceList := QueryController(api, schemaWire, optionsWire, deviceListWire);
    DiscoverDevices(data, deviceList);
    ok := true;
  }

  /**
   * Entry setup's requests on a fresh connection: the quickshot list for the
   * service schema, again for the options, then the device list.
   */
  method QueryController(api: Api.AmaranApi, schemaWire: Api.Wire, optionsWire: Api.Wire, deviceListWire: Api.Wire)
    returns (deviceList: Json)
    requires api.clientId == 1 && api.State() == Api.Session(true, 1, 0) && api.sent == [] && api.calls == []
    modifies api
    ensures SessionAfter(api, schemaWire, optionsWire, deviceListWire, deviceList)
  {
    ghost var oa := Api.SendStep(Api.Session(true, 1, 0), 1, QuickshotListCall, schemaWire);
    var options := api.GetQuickshotList(schemaWire);
    assert api.State() == oa.next && api.sent == if oa.sent.Some? then [oa.sent.value] else [];
    ghost var ob := Api.SendStep(oa.next, 1, QuickshotListCall, optionsWire);
    ghost var sent1 := api.sent;
    options := api.GetQuickshotList(optionsWire);
    assert api.State() == ob.next && api.sent == sent1 + if ob.sent.Some? then [ob.sent.value] else [];
    ghost var sent2 := api.sent;
    ghost var oc := Api.SendStep(ob.next, 1, DeviceListCall, deviceListWire);
    deviceList := api.GetDeviceList(deviceListWire);
    assert api.State() == oc.next && api.sent == sent2 + if oc.sent.Some? then [oc.sent.value] else [];
    RunOfThree(Api.Session(true, 1, 0), 1, QuickshotListCall, schemaWire, QuickshotListCall, optionsWire, DeviceListCall, deviceListWire);
    assert [(QuickshotListCall, schemaWire), (QuickshotListCall, optionsWire), (DeviceListCall, deviceListWire)][..2]
      == [(QuickshotListCall, schemaWire), (QuickshotListCall, optionsWire)];
  }

  const QuickshotListCall: Api.Call := Api.Call("get_quickshot_list", None, [])
  const DeviceListCall: Api.Call := Api.Call("get_device_list", None, [])

  /**
   * The client after entry setup: the three requests ran in order on a
   * session that started connected with request id 1, and `deviceList` is
   * the reply to the third.
   */
  ghost predicate SessionAfter(api: Api.AmaranApi, w1: Api.Wire, w2: Api.Wire, w3: Api.Wire, deviceList: Json)
    reads api
  {
    var steps := [(QuickshotListCall, w1), (QuickshotListCall, w2), (DeviceListCall, w3)];
    var start := Api.Session(true, 1, 0);
    && api.clientId == 1
    && (api.State(), api.sent) == Api.Run(start, 1, steps)
    && api.calls == [QuickshotListCall, QuickshotListCall, DeviceListCall]
    && deviceList == Api.SendStep(Api.Run(start, 1, steps[..2]).0, 1, DeviceListCall, w3).reply
  }

  /** A run of three calls is the three steps one after the other. */
  lemma RunOfThree(s: Api.Session, clientId: int, a: Api.Call, wa: Api.Wire, b: Api.Call, wb: Api.Wire, c: Api.Call, wc: Api.Wire)
    ensures var oa := Api.SendStep(s, clientId, a, wa);
      var ob := Api.SendStep(oa.next, clientId, b, wb);
      var oc := Api.SendStep(ob.next, clientId, c, wc);
      var out := (if oa.sent.Some? then [oa.sent.value] else [])
        + (if ob.sent.Some? then [ob.sent.value] else [])
        + (if oc.sent.Some? then [oc.sent.value] else []);
      && Api.Run(s, clientId, [(a, wa), (b, wb), (c, wc)]) == (oc.next, out)
      && Api.Run(s, clientId, [(a, wa), (b, wb)]).0 == ob.next
  {
    var oa := Api.SendStep(s, clientId, a, wa);
    var ob := Api.SendStep(oa.next, clientId, b, wb);
    var oc := Api.SendStep(ob.next, clientId, c, wc);
    var sa := if oa.sent.Some? then [oa.sent.value] else [];
    var sb := if ob.sent.Some? then [ob.sent.value] else [];
    var sc := if oc.sent.Some? then [oc.sent.value] else [];
    assert [(a, wa), (b, wb), (c, wc)][1..] == [(b, wb), (c, wc)];
    assert [(b, wb), (c, wc)][1..] == [(c, wc)];
    assert [(a, wa), (b, wb)][1..] == [(b, wb)];
    assert [(c, wc)][1..] == [] && [(b, wb)][1..] == [];
    assert Api.Run(oc.next, clientId, []) == (oc.next, []);
    assert Api.Run(ob.next, clientId, [(c, wc)]) == (oc.next, sc + []);
    assert Api.Run(oa.next, clientId, [(b, wb), (c, wc)]) == (oc.next, sb + (sc + []));
    assert Api.Run(s, clientId, [(a, wa), (b, wb), (c, wc)]) == (oc.next, sa + (sb + (sc + [])));
    assert sa + (sb + (sc + [])) == sa + sb + sc;
    assert Api.Run(oa.next, clientId, [(b, wb)]) == (ob.next, sb + []);
  }

  /** How a service call is dispatched. */
  datatype Dispatch = MissingParameter | UnknownDevice | NotALight | Forwarded(nodeId: string)

  /**
   * The dispatch of a service call carrying `param` and 'device_id': a
   * missing parameter or an unknown device ends the call, a discovered
   * description has no node id to forward to, and a registered light's node
   * receives the request.
   */
  function Route(devices: map<Json, Entry>, service: map<string, string>, param: string): (d: Dispatch)
    ensures d == MissingParameter <==> param !in service || "device_id" !in service
    ensures d == UnknownDevice <==>
      param in service && "device_id" in service && JStr(service["device_id"]) !in devices
    ensures d.Forwarded? <==>
      param in service && "device_id" in service && JStr(service["device_id"]) in devices
      && devices[JStr(service["device_id"])].LightEntity?
    ensures d.Forwarded? ==> devices[JStr(service["device_id"])] == LightEntity(d.nodeId)
  {
    if param !in service || "device_id" !in service then MissingParameter
    else
      var id := JStr(service["device_id"]);
      if id !in devices then UnknownDevice
      else match devices[id]
        case Described(_) => NotALight
        case LightEntity(nodeId) => Forwarded(nodeId)
  }

  /** The request a dispatched service call sends: `action` to the node with the one argument `param`. */
  function ServiceCall(action: string, nodeId: string, param: string, value: string): Api.Call
  {
    Api.Call(action, Some(nodeId), [(param, JStr(value))])
  }

  /** The `set_preset` service: a forwarded call performs one request on the stored client, any other leaves it untouched. */
  method SetPreset(data: DomainData, service: map<string, string>, w: Api.Wire) returns (d: Dispatch)
    requires data.api != null
    modifies data.api
    ensures d == Route(data.devices, service, "preset_id")
    ensures d.Forwarded? ==>
      var c := ServiceCall("set_preset", d.nodeId, "preset_id", service["preset_id"]);
      data.api.Performed(c, w, Api.SendStep(old(data.api.State()), data.api.clientId, c, w).reply)
    ensures !d.Forwarded? ==> unchanged(data.api)
  {
    d := Route(data.devices, service, "preset_id");
    if d.Forwarded? {
      var response := data.api.SendRequest("set_preset", Some(d.nodeId), [("preset_id", JStr(service["preset_id"]))], w);
    }
  }

  /** The `set_quickshot` service, dispatched like `set_preset`. */
  method SetQuickshot(data: DomainData, service: map<string, string>, w: Api.Wire) returns (d: Dispatch)
    requires data.api != null
    modifies data.api
    ensures d == Route(data.devices, service, "quickshot_id")
    ensures d.Forwarded? ==>
      var c := ServiceCall("set_quickshot", d.nodeId, "quickshot_id", service["quickshot_id"]);
      data.api.Performed(c, w, Api.SendStep(old(data.api.State()), data.api.clientId, c, w).reply)
    ensures !d.Forwarded? ==> unchanged(data.api)
  {
    d := Route(data.devices, service, "quickshot_id");
    if d.Forwarded? {
      var response := data.api.SendRequest("set_quickshot", Some(d.nodeId), [("quickshot_id", JStr(service["quickshot_id"]))], w);
    }
  }
}
