/**
 * Light platform setup (async_setup_entry in amaran_HA/light.py): the
 * device list, quickshot list and preset list are fetched, group entries are
 * skipped, each remaining device's node configuration decides its colour
 * modes, and every light created is registered in the shared store under its
 * device id. An exception from a malformed reply ends setup part-way, with
 * whatever was stored until then kept and no entity added.
 */
module LightPlatform {
  import opened Wrappers
  import opened Json
  import opened ColorModes
  import Telemetry
  import Api
  import Light
  import Integration

  /** The device id the controller gives a group of lights. */
  const GroupId: string := "00000000000000000000000000000000"

  const DeviceListCall: Api.Call := Api.Call("get_device_list", None, [])
  const QuickshotListCall: Api.Call := Api.Call("get_quickshot_list", None, [])
  const PresetListCall: Api.Call := Api.Call("get_preset_list", None, [])

  function NodeConfigCall(nodeId: string): Api.Call
  {
    Api.Call("get_node_config", Some(nodeId), [])
  }

  /** The reply the controller gives for a node's configuration; an unanswered request yields the `{}` sentinel. */
  function NodeReply(replies: map<string, Json>, nodeId: string): Json
  {
    if nodeId in replies then replies[nodeId] else Empty
  }

  /** A light setup creates: its device id, name, node id and node configuration. */
  datatype Admission = Admission(id: Json, name: Json, nodeId: string, config: Entries)

  /** What setup does with one device-list element: raise, skip it, or create a light. */
  datatype Step = Halt | Skip | Admit(a: Admission)

  /** The node whose configuration was requested for an element, if any, and what became of the element. */
  datatype Verdict = Verdict(query: Option<string>, step: Step)

  /** Whether an element describes a group: a dict whose 'id' is `GroupId`. */
  predicate IsGroup(item: Json)
  {
    item.JObj? && Lookup(item.entries, "id") == Some(JStr(GroupId))
  }

  /**
   * The reference definition of setup's treatment of one element. Indexing
   * a non-dict, a missing 'id', 'node_id' or 'name', a configuration reply
   * whose 'data' test or indexing raises, a configuration that is not a
   * dict and an id that cannot be a key all raise; a group is skipped
   * before any request; a node whose configuration reply has no payload is
   * skipped after its request.
   */
  function Judge(item: Json, replies: map<string, Json>): Verdict
  {
    if !item.JObj? then Verdict(None, Halt)
    else
      var es := item.entries;
      match Lookup(es, "id")
      case None => Verdict(None, Halt)
      case Some(id) =>
        if id == JStr(GroupId) then Verdict(None, Skip)
        else match Lookup(es, "node_id")
          case None => Verdict(None, Halt)
          case Some(node) =>
            if !node.JStr? then Verdict(None, Halt)
            else
              var q := Some(node.s);
              match Api.DataLookupOf(NodeReply(replies, node.s))
              case Absent => Verdict(q, if HasKey(es, "name") then Skip else Halt)
              case Present(config) =>
                if !config.JObj? then Verdict(q, Halt)
                else (match Lookup(es, "name")
                  case None => Verdict(q, Halt)
                  case Some(name) =>
                    if Hashable(id) then Verdict(q, Admit(Admission(id, name, node.s, config.entries)))
                    else Verdict(q, Halt))
              case _ => Verdict(q, Halt)
  }

  /** What `Judge` decides, and the request it makes on the way. */
  lemma JudgeFacts(item: Json, replies: map<string, Json>)
    ensures IsGroup(item) ==> Judge(item, replies) == Verdict(None, Skip)
    ensures var v := Judge(item, replies);
      && (v.query.Some? <==>
            && item.JObj? && HasKey(item.entries, "id") && !IsGroup(item)
            && HasKey(item.entries, "node_id") && Lookup(item.entries, "node_id").value.JStr?)
      && (v.query.Some? ==> Lookup(item.entries, "node_id") == Some(JStr(v.query.value)))
    ensures var v := Judge(item, replies);
      v.step.Admit? ==>
        && v.query == Some(v.step.a.nodeId)
        && v.step.a.id != JStr(GroupId) && Hashable(v.step.a.id)
        && Lookup(item.entries, "id") == Some(v.step.a.id)
        && Lookup(item.entries, "name") == Some(v.step.a.name)
        && Api.DataLookupOf(NodeReply(replies, v.step.a.nodeId)) == Api.Present(JObj(v.step.a.config))
    ensures var v := Judge(item, replies);
      v.step.Skip? && !IsGroup(item) ==>
        v.query.Some? && Api.DataLookupOf(NodeReply(replies, v.query.value)) == Api.Absent && HasKey(item.entries, "name")
  {
  }

  /** Setup's progress through the device list: lights created, nodes queried, and whether it raised. */
  datatype Plan = Plan(admitted: seq<Admission>, queried: seq<string>, halted: bool)

  /** One more element: nothing changes once setup has raised. */
  function Extend(p: Plan, v: Verdict): Plan
  {
    if p.halted then p
    else Plan(
      p.admitted + (if v.step.Admit? then [v.step.a] else []),
      p.queried + (if v.query.Some? then [v.query.value] else []),
      v.step.Halt?)
  }

  /** The verdict on each element of the device list. */
  function Verdicts(items: seq<Json>, replies: map<string, Json>): seq<Verdict>
  {
    seq(|items|, i requires 0 <= i < |items| => Judge(items[i], replies))
  }

  /** Setup's progress after a sequence of verdicts. */
  function Fold(vs: seq<Verdict>): Plan
  {
    if |vs| == 0 then Plan([], [], false)
    else Extend(Fold(vs[..|vs| - 1]), vs[|vs| - 1])
  }

  /** The reference definition of setup's loop over the device list. */
  function PlanOf(items: seq<Json>, replies: map<string, Json>): Plan
  {
    Fold(Verdicts(items, replies))
  }

  lemma FoldSnoc(vs: seq<Verdict>, v: Verdict)
    ensures Fold(vs + [v]) == Extend(Fold(vs), v)
  {
    assert (vs + [v])[..|vs|] == vs;
  }

  /** Elements after the one setup raised at are never looked at. */
  lemma {:induction false} FoldHaltPersists(vs: seq<Verdict>, rest: seq<Verdict>)
    requires Fold(vs).halted
    ensures Fold(vs + rest) == Fold(vs)
    decreases |rest|
  {
    if |rest| > 0 {
      var r := rest[..|rest| - 1];
      FoldHaltPersists(vs, r);
      assert vs + rest == (vs + r) + [rest[|rest| - 1]];
      FoldSnoc(vs + r, rest[|rest| - 1]);
    } else {
      assert vs + rest == vs;
    }
  }

  /** A skip that makes no request changes nothing, wherever it occurs. */
  lemma {:induction false} SkipsChangeNothing(before: seq<Verdict>, after: seq<Verdict>)
    ensures Fold(before + [Verdict(None, Skip)] + after) == Fold(before + after)
    decreases |after|
  {
    var skip := Verdict(None, Skip);
    if |after| == 0 {
      assert before + [skip] + after == before + [skip];
      assert before + after == before;
      FoldSnoc(before, skip);
    } else {
      var a := after[..|after| - 1];
      var x := after[|after| - 1];
      SkipsChangeNothing(before, a);
      assert before + [skip] + after == (before + [skip] + a) + [x];
      assert before + after == (before + a) + [x];
      FoldSnoc(before + [skip] + a, x);
      FoldSnoc(before + a, x);
    }
  }

  /** A group anywhere in the device list changes nothing: no light, no request, no exception. */
  lemma GroupsChangeNothing(before: seq<Json>, group: Json, after: seq<Json>, replies: map<string, Json>)
    requires IsGroup(group)
    ensures PlanOf(before + [group] + after, replies) == PlanOf(before + after, replies)
  {
    JudgeFacts(group, replies);
    var vb, va := Verdicts(before, replies), Verdicts(after, replies);
    assert Verdicts(before + [group] + after, replies) == vb + [Verdict(None, Skip)] + va;
    assert Verdicts(before + after, replies) == vb + va;
    SkipsChangeNothing(vb, va);
  }

  /** Each light in a plan comes from an admitting verdict, and every admitting verdict queried its node. */
  lemma {:induction false} FoldAdmissions(vs: seq<Verdict>)
    requires forall i :: 0 <= i < |vs| && vs[i].step.Admit? ==> vs[i].query == Some(vs[i].step.a.nodeId)
    ensures |Fold(vs).admitted| <= |Fold(vs).queried|
    ensures forall j :: 0 <= j < |Fold(vs).admitted| ==>
      Fold(vs).admitted[j].nodeId in Fold(vs).queried
      && exists i :: 0 <= i < |vs| && vs[i].step == Admit(Fold(vs).admitted[j])
  {
    if |vs| > 0 {
      var n := |vs| - 1;
      var prefix := vs[..n];
      assert forall i :: 0 <= i < n ==> prefix[i] == vs[i];
      FoldAdmissions(prefix);
      var p := Fold(prefix);
      if !p.halted && vs[n].step.Admit? {
        assert Fold(vs).admitted == p.admitted + [vs[n].step.a];
        assert Fold(vs).queried == p.queried + [vs[n].step.a.nodeId];
      }
    }
  }

  /**
   * Every light setup creates has a device id other than the group id and
   * usable as a key, and its node's configuration was requested.
   */
  lemma PlanAdmissions(items: seq<Json>, replies: map<string, Json>)
    ensures var p := PlanOf(items, replies);
      && |p.admitted| <= |p.queried|
      && forall j :: 0 <= j < |p.admitted| ==>
        p.admitted[j].id != JStr(GroupId) && Hashable(p.admitted[j].id) && p.admitted[j].nodeId in p.queried
  {
    var vs := Verdicts(items, replies);
    forall i | 0 <= i < |vs|
      ensures vs[i].step.Admit? ==>
        vs[i].query == Some(vs[i].step.a.nodeId) && vs[i].step.a.id != JStr(GroupId) && Hashable(vs[i].step.a.id)
    {
      JudgeFacts(items[i], replies);
    }
    FoldAdmissions(vs);
  }

  /** The get_node_config requests for the nodes queried, in order. */
  function NodeCalls(queried: seq<string>): seq<Api.Call>
  {
    if |queried| == 0 then []
    else NodeCalls(queried[..|queried| - 1]) + [NodeConfigCall(queried[|queried| - 1])]
  }

  /** The store after registering the lights created, in order: a later light with the same id replaces an earlier entry. */
  function Register(devices: map<Json, Integration.Entry>, admitted: seq<Admission>): map<Json, Integration.Entry>
  {
    if |admitted| == 0 then devices
    else
      var a := admitted[|admitted| - 1];
      Register(devices, admitted[..|admitted| - 1])[a.id := Integration.LightEntity(a.nodeId)]
  }

  /**
   * A registered light is found under its device id, and a set_preset or
   * set_quickshot call naming that id is forwarded to its node, when no
   * later light took the same id.
   */
  lemma {:induction false} RegisteredLightsRoute(devices: map<Json, Integration.Entry>, admitted: seq<Admission>, j: nat,
                                                 service: map<string, string>, param: string)
    requires j < |admitted|
    requires forall k :: j < k < |admitted| ==> admitted[k].id != admitted[j].id
    requires param in service && "device_id" in service && admitted[j].id == JStr(service["device_id"])
    ensures admitted[j].id in Register(devices, admitted)
    ensures Register(devices, admitted)[admitted[j].id] == Integration.LightEntity(admitted[j].nodeId)
    ensures Integration.Route(Register(devices, admitted), service, param) == Integration.Forwarded(admitted[j].nodeId)
  {
    var n := |admitted| - 1;
    if j < n {
      var prefix := admitted[..n];
      assert forall k :: j < k < n ==> prefix[k] == admitted[k];
      RegisteredLightsRoute(devices, prefix, j, service, param);
    }
  }

  /** Registration adds the ids of the lights created and keeps every other entry. */
  lemma {:induction false} RegisterKeeps(devices: map<Json, Integration.Entry>, admitted: seq<Admission>)
    ensures forall k :: k in Register(devices, admitted) <==>
      k in devices || exists j :: 0 <= j < |admitted| && admitted[j].id == k
    ensures forall k :: k in devices && (forall j :: 0 <= j < |admitted| ==> admitted[j].id != k) ==>
      Register(devices, admitted)[k] == devices[k]
  {
    if |admitted| > 0 {
      var n := |admitted| - 1;
      var prefix := admitted[..n];
      RegisterKeeps(devices, prefix);
      assert forall j :: 0 <= j < n ==> prefix[j] == admitted[j];
      forall k | k in Register(devices, admitted) && k !in devices
        ensures exists j :: 0 <= j < |admitted| && admitted[j].id == k
      {
        if k != admitted[n].id {
          var j :| 0 <= j < n && prefix[j].id == k;
          assert admitted[j].id == k;
        }
      }
    }
  }

  /** A quickshot-list element the table can use: a dict with a usable 'id' and a 'name'. */
  predicate Quickshot(item: Json)
  {
    item.JObj? && HasKey(item.entries, "id") && HasKey(item.entries, "name")
    && Hashable(Lookup(item.entries, "id").value)
  }

  /** An element's 'id', None when it is not a dict or has none. */
  function IdOf(item: Json): Option<Json>
  {
    if item.JObj? then Lookup(item.entries, "id") else None
  }

  /** `{item['id']: item['name'] for item in items}`, None when an element makes it raise. */
  function QuickshotPairs(items: seq<Json>): Option<map<Json, Json>>
  {
    if |items| == 0 then Some(map[])
    else
      var t := QuickshotPairs(items[..|items| - 1]);
      var item := items[|items| - 1];
      if t.None? || !Quickshot(item) then None
      else Some(t.value[Lookup(item.entries, "id").value := Lookup(item.entries, "name").value])
  }

  /** Building the table raises exactly when some element is not a usable quickshot. */
  lemma {:induction false} QuickshotPairsDefined(items: seq<Json>)
    ensures QuickshotPairs(items).Some? <==> forall i :: 0 <= i < |items| ==> Quickshot(items[i])
  {
    if |items| > 0 {
      var n := |items| - 1;
      QuickshotPairsDefined(items[..n]);
      assert forall i :: 0 <= i < n ==> items[..n][i] == items[i];
    }
  }

  /** The table's ids are exactly the ids of the list's elements. */
  lemma {:induction false} QuickshotPairsKeys(items: seq<Json>, k: Json)
    requires QuickshotPairs(items).Some?
    ensures k in QuickshotPairs(items).value <==> exists i :: 0 <= i < |items| && IdOf(items[i]) == Some(k)
  {
    if |items| > 0 {
      var n := |items| - 1;
      var prefix := items[..n];
      QuickshotPairsKeys(prefix, k);
      if exists i :: 0 <= i < |items| && IdOf(items[i]) == Some(k) {
        var i :| 0 <= i < |items| && IdOf(items[i]) == Some(k);
        if i < n {
          assert prefix[i] == items[i];
        }
      }
      if k in QuickshotPairs(prefix).value {
        var i :| 0 <= i < n && IdOf(prefix[i]) == Some(k);
        assert prefix[i] == items[i];
      }
    }
  }

  /** The quickshot table built from a quickshot-list payload, None when building it raises. */
  function QuickshotTable(payload: Json): Option<map<Json, Json>>
  {
    match Elements(payload)
    case None => None
    case Some(items) => QuickshotPairs(items)
  }

  /** How platform setup ends: no device list, an exception part-way, or the lights handed to the host. */
  datatype SetupOutcome = NoDeviceList | Aborted | Added

  /** Everything platform setup leaves behind. */
  datatype Setup = Setup(
    outcome: SetupOutcome,
    devices: map<Json, Integration.Entry>,
    quickshots: map<Json, Json>,
    presets: Json,
    added: seq<Admission>,
    calls: seq<Api.Call>)

  /**
   * The quickshot table after the quickshot-list reply: rebuilt from a
   * payload, kept without one; None when the 'data' test or the rebuilding
   * raises.
   */
  function TableAfter(quickshots: map<Json, Json>, quickshotList: Json): Option<map<Json, Json>>
  {
    match Api.DataLookupOf(quickshotList)
    case Absent => Some(quickshots)
    case Present(payload) => QuickshotTable(payload)
    case _ => None
  }

  /** The stored presets after the preset-list reply: its payload as it is, or the previous value; None when the 'data' test raises. */
  function PresetsAfter(presets: Json, presetList: Json): Option<Json>
  {
    match Api.DataLookupOf(presetList)
    case Absent => Some(presets)
    case Present(payload) => Some(payload)
    case _ => None
  }

  /**
   * A list reply that is falsy, or a dict without 'data', keeps what is
   * stored; a dict with 'data' supplies the new value; a truthy number or
   * boolean makes the 'data' test raise.
   */
  lemma ListRepliesRead(quickshots: map<Json, Json>, presets: Json, reply: Json)
    ensures !Truthy(reply) || (reply.JObj? && !HasKey(reply.entries, "data")) ==>
      TableAfter(quickshots, reply) == Some(quickshots) && PresetsAfter(presets, reply) == Some(presets)
    ensures reply.JObj? && HasKey(reply.entries, "data") ==>
      && TableAfter(quickshots, reply) == QuickshotTable(Lookup(reply.entries, "data").value)
      && PresetsAfter(presets, reply) == Some(Lookup(reply.entries, "data").value)
    ensures IsNumber(reply) && Truthy(reply) ==> TableAfter(quickshots, reply).None? && PresetsAfter(presets, reply).None?
  {
    Api.DataLookupRaises(reply);
  }

  /** The reference definition of platform setup over the controller's replies. */
  function SetupRun(devices: map<Json, Integration.Entry>, quickshots: map<Json, Json>, presets: Json,
                    deviceList: Json, quickshotList: Json, presetList: Json,
                    replies: map<string, Json>): Setup
  {
    var listed := Api.DataLookupOf(deviceList);
    if listed.Absent? then Setup(NoDeviceList, devices, quickshots, presets, [], [DeviceListCall])
    else if listed.InRaises? then Setup(Aborted, devices, quickshots, presets, [], [DeviceListCall])
    else
      var table := TableAfter(quickshots, quickshotList);
      if table.None? then Setup(Aborted, devices, quickshots, presets, [], [DeviceListCall, QuickshotListCall])
      else
        var presets' := PresetsAfter(presets, presetList);
        var head := [DeviceListCall, QuickshotListCall, PresetListCall];
        if presets'.None? then Setup(Aborted, devices, table.value, presets, [], head)
        else Admitting(devices, table.value, presets'.value, listed, replies)
  }

  /**
   * Setup once both lists are stored: the loop over the device-list
   * payload. Indexing a reply without one, or iterating a payload that
   * cannot be iterated, raises before any element.
   */
  function Admitting(devices: map<Json, Integration.Entry>, quickshots: map<Json, Json>, presets: Json,
                     listed: Api.DataLookup, replies: map<string, Json>): (r: Setup)
    ensures r.outcome != NoDeviceList
    ensures r.outcome != Added ==> r.added == []
    ensures r.quickshots == quickshots && r.presets == presets
    ensures |r.calls| >= 3 && r.calls[..3] == [DeviceListCall, QuickshotListCall, PresetListCall]
  {
    var head := [DeviceListCall, QuickshotListCall, PresetListCall];
    if !listed.Present? then Setup(Aborted, devices, quickshots, presets, [], head)
    else match Elements(listed.payload)
      case None => Setup(Aborted, devices, quickshots, presets, [], head)
      case Some(items) =>
        var p := PlanOf(items, replies);
        assert (head + NodeCalls(p.queried))[..3] == head;
        Setup(if p.halted then Aborted else Added, Register(devices, p.admitted), quickshots, presets,
              if p.halted then [] else p.admitted, head + NodeCalls(p.queried))
  }

  /**
   * Without a device list setup stops after its first request and changes
   * nothing; a device-list reply whose 'data' test raises does the same,
   * as an exception.
   */
  lemma SetupRunStops(devices: map<Json, Integration.Entry>, quickshots: map<Json, Json>, presets: Json,
                      deviceList: Json, quickshotList: Json, presetList: Json, replies: map<string, Json>)
    ensures var r := SetupRun(devices, quickshots, presets, deviceList, quickshotList, presetList, replies);
      && (r.outcome == NoDeviceList <==> Api.DataLookupOf(deviceList) == Api.Absent)
      && (r.outcome == NoDeviceList ==> r == Setup(NoDeviceList, devices, quickshots, presets, [], [DeviceListCall]))
      && (Api.DataLookupOf(deviceList) == Api.InRaises ==>
            r == Setup(Aborted, devices, quickshots, presets, [], [DeviceListCall]))
      && (r.outcome != Added ==> r.added == [])
  {
  }

  /**
   * With a device list, setup asks for the quickshot list and then the preset
   * list before any node configuration.
   */
  lemma SetupRunOrder(devices: map<Json, Integration.Entry>, quickshots: map<Json, Json>, presets: Json,
                      deviceList: Json, quickshotList: Json, presetList: Json, replies: map<string, Json>)
    ensures var r := SetupRun(devices, quickshots, presets, deviceList, quickshotList, presetList, replies);
      && (Api.DataLookupOf(deviceList).Present? || Api.DataLookupOf(deviceList).IndexRaises? ==>
            |r.calls| >= 2 && r.calls[..2] == [DeviceListCall, QuickshotListCall])
      && (r.outcome == Added ==> |r.calls| >= 3 && r.calls[2] == PresetListCall)
  {
    var listed := Api.DataLookupOf(deviceList);
    var r := SetupRun(devices, quickshots, presets, deviceList, quickshotList, presetList, replies);
    if listed.Present? || listed.IndexRaises? {
      var table := TableAfter(quickshots, quickshotList);
      if table.None? {
        assert r.calls == [DeviceListCall, QuickshotListCall];
      } else {
        var presets' := PresetsAfter(presets, presetList);
        var head := [DeviceListCall, QuickshotListCall, PresetListCall];
        if presets'.None? {
          assert r.calls == head;
        } else {
          assert r == Admitting(devices, table.value, presets'.value, listed, replies);
        }
        assert r.calls[..2] == r.calls[..3][..2];
      }
    }
  }

  /** The node configurations requested are, in order, those of the nodes the plan queried. */
  lemma {:induction false} NodeCallsOf(queried: seq<string>)
    ensures |NodeCalls(queried)| == |queried|
    ensures forall j :: 0 <= j < |queried| ==> NodeCalls(queried)[j] == NodeConfigCall(queried[j])
  {
    if |queried| > 0 {
      var n := |queried| - 1;
      NodeCallsOf(queried[..n]);
      assert forall j :: 0 <= j < n ==> queried[..n][j] == queried[j];
    }
  }

  /**
   * The lights handed over never include a group, each has an id usable as
   * a key, and each one's node configuration was requested.
   */
  lemma SetupRunAdded(devices: map<Json, Integration.Entry>, quickshots: map<Json, Json>, presets: Json,
                      deviceList: Json, quickshotList: Json, presetList: Json, replies: map<string, Json>)
    ensures var r := SetupRun(devices, quickshots, presets, deviceList, quickshotList, presetList, replies);
      forall j :: 0 <= j < |r.added| ==>
        r.added[j].id != JStr(GroupId) && Hashable(r.added[j].id) && NodeConfigCall(r.added[j].nodeId) in r.calls
  {
    var r := SetupRun(devices, quickshots, presets, deviceList, quickshotList, presetList, replies);
    var listed := Api.DataLookupOf(deviceList);
    var table := TableAfter(quickshots, quickshotList);
    var presets' := PresetsAfter(presets, presetList);
    if !listed.Absent? && !listed.InRaises? && table.Some? && presets'.Some? {
      assert r == Admitting(devices, table.value, presets'.value, listed, replies);
      AdmittingAdded(devices, table.value, presets'.value, listed, replies);
    }
  }

  /** The lights the device-list loop admits, and the node requests it sends for them. */
  lemma AdmittingAdded(devices: map<Json, Integration.Entry>, quickshots: map<Json, Json>, presets: Json,
                       listed: Api.DataLookup, replies: map<string, Json>)
    ensures var r := Admitting(devices, quickshots, presets, listed, replies);
      forall j :: 0 <= j < |r.added| ==>
        r.added[j].id != JStr(GroupId) && Hashable(r.added[j].id) && NodeConfigCall(r.added[j].nodeId) in r.calls
  {
    var r := Admitting(devices, quickshots, presets, listed, replies);
    if r.outcome == Added {
      var items := Elements(listed.payload).value;
      var p := PlanOf(items, replies);
      PlanAdmissions(items, replies);
      NodeCallsOf(p.queried);
      var head := [DeviceListCall, QuickshotListCall, PresetListCall];
      assert r.calls == head + NodeCalls(p.queried);
      forall j | 0 <= j < |r.added|
        ensures NodeConfigCall(r.added[j].nodeId) in r.calls
      {
        var k :| 0 <= k < |p.queried| && p.queried[k] == r.added[j].nodeId;
        assert r.calls[3 + k] == NodeConfigCall(p.queried[k]);
      }
    }
  }

  /** A light entity as setup creates it for an admission: off, at full brightness, with no colour, requests not yet sent. */
  ghost predicate Built(l: Light.AmaranLight, a: Admission)
    reads l
  {
    && l.deviceId == a.id && l.name == a.name && l.nodeId == a.nodeId && l.config == a.config
    && l.colorModes == SupportedModes(InitialModes(a.config))
    && l.State() == Light.LightState(false, Telemetry.FullBrightness, None, None, None, DefaultMode(l.colorModes))
    && l.requests == []
    && l.Valid()
  }

  /** One element of the device list, handled as the loop body does. */
  method AdmitOne(data: Integration.DomainData, item: Json, replies: map<string, Json>)
    returns (v: Verdict, light: Light.AmaranLight?)
    modifies data`devices
    ensures v == Judge(item, replies)
    ensures data.devices == if v.step.Admit? then old(data.devices)[v.step.a.id := Integration.LightEntity(v.step.a.nodeId)]
                            else old(data.devices)
    ensures v.step.Admit? ==> light != null && fresh(light) && Built(light, v.step.a)
  {
    light := null;
    if !item.JObj? {
      return Verdict(None, Halt), null;
    }
    var es := item.entries;
    var id := Lookup(es, "id");
    if id.None? {
      return Verdict(None, Halt), null;
    }
    if id.value == JStr(GroupId) {
      return Verdict(None, Skip), null;
    }
    var node := Lookup(es, "node_id");
    if node.None? || !node.value.JStr? {
      return Verdict(None, Halt), null;
    }
    var nodeId := node.value.s;
    var nodeConfig := Api.DataLookupOf(NodeReply(replies, nodeId));
    if nodeConfig.Absent? {
      return Verdict(Some(nodeId), if HasKey(es, "name") then Skip else Halt), null;
    }
    if !nodeConfig.Present? || !nodeConfig.payload.JObj? {
      return Verdict(Some(nodeId), Halt), null;
    }
    var config := nodeConfig.payload.entries;
    var modes := InitialModes(config);
    var name := Lookup(es, "name");
    if name.None? {
      return Verdict(Some(nodeId), Halt), null;
    }
    light := new Light.AmaranLight(id.value, name.value, nodeId, modes, config);
    if !Hashable(id.value) {
      return Verdict(Some(nodeId), Halt), light;
    }
    data.devices := data.devices[id.value := Integration.LightEntity(nodeId)];
    v := Verdict(Some(nodeId), Admit(Admission(id.value, name.value, nodeId, config)));
  }

  /** Each light is built for the admission at the same position. */
  ghost predicate BuiltAll(built: seq<Light.AmaranLight>, admitted: seq<Admission>)
    reads built
  {
    |built| == |admitted| && forall j :: 0 <= j < |built| ==> Built(built[j], admitted[j])
  }

  /** A light built for one more admission extends the lights built so far. */
  lemma BuiltExtend(built: seq<Light.AmaranLight>, light: Light.AmaranLight, admitted: seq<Admission>, a: Admission)
    requires BuiltAll(built, admitted) && Built(light, a)
    ensures BuiltAll(built + [light], admitted + [a])
  {
    forall j | 0 <= j < |built| + 1
      ensures Built((built + [light])[j], (admitted + [a])[j])
    {
      if j < |built| {
        assert (built + [light])[j] == built[j] && (admitted + [a])[j] == admitted[j];
      }
    }
  }

  /** The state the loop keeps in step with the plan `p` for the elements seen so far. */
  ghost predicate Progress(devices: map<Json, Integration.Entry>, base: map<Json, Integration.Entry>, p: Plan,
                           calls: seq<Api.Call>, built: seq<Light.AmaranLight>)
    reads built
  {
    devices == Register(base, p.admitted) && calls == NodeCalls(p.queried) && (!p.halted ==> BuiltAll(built, p.admitted))
  }

  /** One turn of setup's loop, taking the progress `p` through one more element. */
  method Advance(data: Integration.DomainData, item: Json, replies: map<string, Json>,
                 ghost base: map<Json, Integration.Entry>, ghost p: Plan,
                 built: seq<Light.AmaranLight>, calls: seq<Api.Call>)
    returns (halted: bool, built': seq<Light.AmaranLight>, calls': seq<Api.Call>, v: Verdict)
    requires !p.halted && Progress(data.devices, base, p, calls, built)
    modifies data`devices
    ensures v == Judge(item, replies)
    ensures halted == Extend(p, v).halted
    ensures Progress(data.devices, base, Extend(p, v), calls', built')
  {
    var light;
    v, light := AdmitOne(data, item, replies);
    calls' := if v.query.Some? then calls + [NodeConfigCall(v.query.value)] else calls;
    built' := if v.step.Admit? then built + [light] else built;
    halted := v.step.Halt?;
    StepProgress(old(data.devices), data.devices, base, p, calls, built, v, light);
  }

  /** The progress kept by one loop turn, stated over the values the turn leaves behind. */
  lemma StepProgress(devices: map<Json, Integration.Entry>, devices': map<Json, Integration.Entry>,
                     base: map<Json, Integration.Entry>, p: Plan, calls: seq<Api.Call>,
                     built: seq<Light.AmaranLight>, v: Verdict, light: Light.AmaranLight?)
    requires !p.halted && Progress(devices, base, p, calls, built)
    requires devices' == if v.step.Admit? then devices[v.step.a.id := Integration.LightEntity(v.step.a.nodeId)] else devices
    requires v.step.Admit? ==> light != null && Built(light, v.step.a)
    ensures Progress(devices', base, Extend(p, v),
                     if v.query.Some? then calls + [NodeConfigCall(v.query.value)] else calls,
                     if v.step.Admit? then built + [light] else built)
  {
    ExtendParts(base, p, v);
    if v.step.Admit? {
      BuiltExtend(built, light, p.admitted, v.step.a);
    }
  }

  /** What one more verdict adds to the admissions, the node requests and the store. */
  lemma ExtendParts(base: map<Json, Integration.Entry>, p: Plan, v: Verdict)
    requires !p.halted
    ensures var q := Extend(p, v);
      && q.admitted == (if v.step.Admit? then p.admitted + [v.step.a] else p.admitted)
      && NodeCalls(q.queried) == (if v.query.Some? then NodeCalls(p.queried) + [NodeConfigCall(v.query.value)] else NodeCalls(p.queried))
      && Register(base, q.admitted) ==
           (if v.step.Admit? then Register(base, p.admitted)[v.step.a.id := Integration.LightEntity(v.step.a.nodeId)]
            else Register(base, p.admitted))
  {
    var q := Extend(p, v);
    if v.query.Some? {
      assert q.queried[..|p.queried|] == p.queried;
    } else {
      assert q.queried == p.queried;
    }
    if v.step.Admit? {
      assert q.admitted[..|p.admitted|] == p.admitted;
    } else {
      assert q.admitted == p.admitted;
    }
  }

  /** Setup's loop over the device list: registers, creates and queries as `PlanOf` says, up to an exception. */
  method AdmitAll(data: Integration.DomainData, items: seq<Json>, replies: map<string, Json>)
    returns (halted: bool, built: seq<Light.AmaranLight>, calls: seq<Api.Call>)
    modifies data`devices
    ensures halted == PlanOf(items, replies).halted
    ensures Progress(data.devices, old(data.devices), PlanOf(items, replies), calls, built)
  {
    built := [];
    calls := [];
    ghost var base := data.devices;
    ghost var vs := Verdicts(items, replies);
    var i := 0;
    while i < |items|
      invariant 0 <= i <= |items|
      invariant !Fold(vs[..i]).halted
      invariant Progress(data.devices, base, Fold(vs[..i]), calls, built)
    {
      assert vs[..i + 1] == vs[..i] + [vs[i]];
      FoldSnoc(vs[..i], vs[i]);
      var stop;
      var v;
      stop, built, calls, v := Advance(data, items[i], replies, base, Fold(vs[..i]), built, calls);
      if stop {
        assert vs == vs[..i + 1] + vs[i + 1..];
        FoldHaltPersists(vs[..i + 1], vs[i + 1..]);
        return true, built, calls;
      }
      i := i + 1;
    }
    assert vs[..i] == vs;
    halted := false;
  }

  /** The quickshot list stored as setup stores it; false when the 'data' test or building the table raises. */
  method StoreQuickshots(data: Integration.DomainData, quickshotList: Json) returns (ok: bool)
    modifies data`quickshots
    ensures ok == TableAfter(old(data.quickshots), quickshotList).Some?
    ensures data.quickshots == if ok then TableAfter(old(data.quickshots), quickshotList).value else old(data.quickshots)
  {
    var qs := Api.DataLookupOf(quickshotList);
    if qs.InRaises? || qs.IndexRaises? {
      return false;
    }
    if qs.Present? {
      var table := QuickshotTable(qs.payload);
      if table.None? {
        return false;
      }
      data.quickshots := table.value;
    }
    ok := true;
  }

  /** The preset list stored as setup stores it; false when the 'data' test raises. */
  method StorePresets(data: Integration.DomainData, presetList: Json) returns (ok: bool)
    modifies data`presets
    ensures ok == PresetsAfter(old(data.presets), presetList).Some?
    ensures data.presets == if ok then PresetsAfter(old(data.presets), presetList).value else old(data.presets)
  {
    var ps := Api.DataLookupOf(presetList);
    if ps.InRaises? || ps.IndexRaises? {
      return false;
    }
    if ps.Present? {
      data.presets := ps.payload;
    }
    ok := true;
  }

  /**
   * Platform setup. The controller's replies (the device list, the quickshot
   * and preset lists, and each node's configuration by node id) are
   * parameters; `calls` are the requests made, in order, and `lights` the
   * entities handed to the host, each with exactly one supported mode.
   */
  method SetupLights(data: Integration.DomainData, deviceList: Json, quickshotList: Json, presetList: Json,
                     replies: map<string, Json>)
    returns (outcome: SetupOutcome, lights: seq<Light.AmaranLight>, calls: seq<Api.Call>)
    modifies data`devices, data`quickshots, data`presets
    ensures var r := SetupRun(old(data.devices), old(data.quickshots), old(data.presets),
                              deviceList, quickshotList, presetList, replies);
      && outcome == r.outcome && calls == r.calls
      && data.devices == r.devices && data.quickshots == r.quickshots && data.presets == r.presets
      && BuiltAll(lights, r.added)
    ensures forall j :: 0 <= j < |lights| ==> |lights[j].colorModes| == 1
  {
    var listed := Api.DataLookupOf(deviceList);
    if listed.Absent? {
      return NoDeviceList, [], [DeviceListCall];
    }
    if listed.InRaises? {
      return Aborted, [], [DeviceListCall];
    }
    var ok := StoreQuickshots(data, quickshotList);
    if !ok {
      return Aborted, [], [DeviceListCall, QuickshotListCall];
    }
    calls := [DeviceListCall, QuickshotListCall, PresetListCall];
    ok := StorePresets(data, presetList);
    if !ok || listed.IndexRaises? {
      return Aborted, [], calls;
    }
    var elements := Elements(listed.payload);
    if elements.None? {
      return Aborted, [], calls;
    }
    var halted, built, nodeCalls := AdmitAll(data, elements.value, replies);
    calls := calls + nodeCalls;
    if halted {
      return Aborted, [], calls;
    }
    forall j | 0 <= j < |built|
      ensures |built[j].colorModes| == 1
    {
      SetupModesSingle(built[j].config);
    }
    return Added, built, calls;
  }
}
