/**
 * The request engine of the integration (class AmaranAPI in __init__.py):
 * one session with the lighting controller, the request envelope, lazy
 * reconnection, the `{}` failure sentinel and request pacing.
 *
 * The socket, the token generator (AES-256-GCM over the shared secret) and
 * the clock are oracles: everything they decide during one call of
 * `send_request` is gathered in a `Wire` value.
 */
module Api {
  import opened Wrappers
  import opened Json

  /** The protocol version every envelope carries. */
  const ProtocolVersion: int := 2

  /** Minimum spacing between the recorded times of two calls, in milliseconds (0.2 s). */
  const MinRequestInterval: int := 200

  /**
   * One call of `send_request`: the action name, the optional node id and the
   * argument mapping (an empty mapping stands for both `None` and `{}`, which
   * the envelope treats alike).
   */
  datatype Call = Call(action: string, nodeId: Option<string>, args: Entries)

  /**
   * What the outside world does during one call of `send_request`:
   * - `now`: the clock, in milliseconds, when the call starts;
   * - `slack`: how much later than requested the clock is read again after
   *   the pacing sleep (zero or more milliseconds);
   * - `connectOk`: whether `connect` succeeds, if it is attempted;
   * - `token`: what `generate_token` returns ("" on failure);
   * - `sendOk`: whether `websocket.send` completes;
   * - `reply`: the decoded reply, or None when `recv` or `json.loads` fails.
   */
  datatype Wire = Wire(now: int, slack: nat, connectOk: bool, token: string, sendOk: bool, reply: Option<Json>)

  /**
   * The mutable part of a session: whether a socket is held, the next request
   * id and the time recorded by the last call.
   */
  datatype Session = Session(connected: bool, requestId: nat, lastRequestTime: int)

  /** The session of a freshly constructed client. */
  const InitialSession: Session := Session(false, 1, 0)

  /** `if node_id:` for an optional string. */
  predicate NodeIdGiven(nodeId: Option<string>)
  {
    nodeId.Some? && |nodeId.value| > 0
  }

  /** The request object `send_request` serialises. */
  function Envelope(clientId: int, requestId: int, action: string, token: string,
                    nodeId: Option<string>, args: Entries): (r: Json)
    ensures r.JObj?
    ensures Lookup(r.entries, "version") == Some(JInt(ProtocolVersion))
    ensures Lookup(r.entries, "type") == Some(JStr("request"))
    ensures Lookup(r.entries, "client_id") == Some(JInt(clientId))
    ensures Lookup(r.entries, "request_id") == Some(JInt(requestId))
    ensures Lookup(r.entries, "action") == Some(JStr(action))
    ensures Lookup(r.entries, "token") == Some(JStr(token))
    ensures Lookup(r.entries, "node_id") == if NodeIdGiven(nodeId) then Some(JStr(nodeId.value)) else None
    ensures Lookup(r.entries, "args") == if |args| > 0 then Some(JObj(args)) else None
    ensures |r.entries| == 6 + (if NodeIdGiven(nodeId) then 1 else 0) + (if |args| > 0 then 1 else 0)
  {
    var es := EnvelopeEntries(clientId, requestId, action, token, nodeId, args);
    EnvelopeLookups(clientId, requestId, action, token, nodeId, args);
    JObj(es)
  }

  /** The entries of the envelope, in the order `send_request` inserts them. */
  function EnvelopeEntries(clientId: int, requestId: int, action: string, token: string,
                           nodeId: Option<string>, args: Entries): Entries
  {
    [("version", JInt(ProtocolVersion)), ("type", JStr("request")),
     ("client_id", JInt(clientId)), ("request_id", JInt(requestId)),
     ("action", JStr(action)), ("token", JStr(token))]
    + (if NodeIdGiven(nodeId) then [("node_id", JStr(nodeId.value))] else [])
    + (if |args| > 0 then [("args", JObj(args))] else [])
  }

  lemma EnvelopeLookups(clientId: int, requestId: int, action: string, token: string,
                        nodeId: Option<string>, args: Entries)
    ensures var es := EnvelopeEntries(clientId, requestId, action, token, nodeId, args);
      && Lookup(es, "version") == Some(JInt(ProtocolVersion))
      && Lookup(es, "type") == Some(JStr("request"))
      && Lookup(es, "client_id") == Some(JInt(clientId))
      && Lookup(es, "request_id") == Some(JInt(requestId))
      && Lookup(es, "action") == Some(JStr(action))
      && Lookup(es, "token") == Some(JStr(token))
      && Lookup(es, "node_id") == (if NodeIdGiven(nodeId) then Some(JStr(nodeId.value)) else None)
      && Lookup(es, "args") == (if |args| > 0 then Some(JObj(args)) else None)
      && |es| == 6 + (if NodeIdGiven(nodeId) then 1 else 0) + (if |args| > 0 then 1 else 0)
  {
    var es := EnvelopeEntries(clientId, requestId, action, token, nodeId, args);
    var n := if NodeIdGiven(nodeId) then 1 else 0;
    assert |es| == 6 + n + (if |args| > 0 then 1 else 0);
    assert es[0].0 == "version" && es[1].0 == "type" && es[2].0 == "client_id";
    assert es[3].0 == "request_id" && es[4].0 == "action" && es[5].0 == "token";
    LookupFirst(es, 0, "version");
    LookupFirst(es, 1, "type");
    LookupFirst(es, 2, "client_id");
    LookupFirst(es, 3, "request_id");
    LookupFirst(es, 4, "action");
    LookupFirst(es, 5, "token");
    if NodeIdGiven(nodeId) {
      assert es[6] == ("node_id", JStr(nodeId.value));
      LookupFirst(es, 6, "node_id");
    } else {
      LookupMissing(es, "node_id");
    }
    if |args| > 0 {
      assert es[6 + n] == ("args", JObj(args));
      LookupFirst(es, 6 + n, "args");
    } else {
      LookupMissing(es, "args");
    }
  }

  /** The time a call records: it sleeps until the interval since the previous record has passed. */
  function PacedTime(last: int, now: int, slack: nat): (t: int)
    ensures t >= last + MinRequestInterval
    ensures t >= now
    ensures now - last >= MinRequestInterval ==> t == now + slack
  {
    var elapsed := now - last;
    (if elapsed < MinRequestInterval then now + (MinRequestInterval - elapsed) else now) + slack
  }

  /** The effect of one call of `send_request`: the new session, the reply, and the envelope that went out, if any. */
  datatype Outcome = Outcome(next: Session, reply: Json, sent: Option<Json>)

  /** The reference definition of one call of `send_request`. */
  function SendStep(s: Session, clientId: int, c: Call, w: Wire): (o: Outcome)
    ensures o.next.lastRequestTime == PacedTime(s.lastRequestTime, w.now, w.slack)
    ensures o.sent.Some? <==> (s.connected || w.connectOk) && w.token != "" && w.sendOk
    ensures o.sent.Some? ==> o.sent.value == Envelope(clientId, s.requestId, c.action, w.token, c.nodeId, c.args)
    ensures o.next.requestId == s.requestId + (if o.sent.Some? then 1 else 0)
    ensures o.next.connected <==>
              (s.connected || w.connectOk) && (w.token == "" || (w.sendOk && w.reply.Some?))
    ensures o.reply == if o.sent.Some? && w.reply.Some? then w.reply.value else Empty
  {
    var t := PacedTime(s.lastRequestTime, w.now, w.slack);
    if !s.connected && !w.connectOk then
      Outcome(Session(false, s.requestId, t), Empty, None)
    else if w.token == "" then
      Outcome(Session(true, s.requestId, t), Empty, None)
    else if !w.sendOk then
      Outcome(Session(false, s.requestId, t), Empty, None)
    else
      var env := Envelope(clientId, s.requestId, c.action, w.token, c.nodeId, c.args);
      match w.reply
      case None => Outcome(Session(false, s.requestId + 1, t), Empty, Some(env))
      case Some(r) => Outcome(Session(true, s.requestId + 1, t), r, Some(env))
  }

  /** A sequence of calls on one session: the final session and the envelopes that went out, in order. */
  function Run(s: Session, clientId: int, steps: seq<(Call, Wire)>): (Session, seq<Json>)
    decreases |steps|
  {
    if |steps| == 0 then (s, [])
    else
      var o := SendStep(s, clientId, steps[0].0, steps[0].1);
      var rest := Run(o.next, clientId, steps[1..]);
      (rest.0, (if o.sent.Some? then [o.sent.value] else []) + rest.1)
  }

  /** The `request_id` field of an envelope. */
  function RequestIdOf(env: Json): Option<Json>
  {
    if env.JObj? then Lookup(env.entries, "request_id") else None
  }

  /**
   * Request ids are consecutive: the envelopes that go out over any sequence
   * of calls carry the ids the session started with, one after the other, and
   * the session's id has advanced by exactly the number of envelopes sent.
   */
  lemma {:induction false} RunRequestIds(s: Session, clientId: int, steps: seq<(Call, Wire)>)
    ensures var r := Run(s, clientId, steps);
      r.0.requestId == s.requestId + |r.1| &&
      forall i :: 0 <= i < |r.1| ==> RequestIdOf(r.1[i]) == Some(JInt(s.requestId + i))
    decreases |steps|
  {
    if |steps| > 0 {
      var o := SendStep(s, clientId, steps[0].0, steps[0].1);
      RunRequestIds(o.next, clientId, steps[1..]);
    }
  }

  /** Over any sequence of calls the recorded time advances by at least the minimum interval per call. */
  lemma {:induction false} RunPacing(s: Session, clientId: int, steps: seq<(Call, Wire)>)
    ensures Run(s, clientId, steps).0.lastRequestTime >= s.lastRequestTime + MinRequestInterval * |steps|
    decreases |steps|
  {
    if |steps| > 0 {
      var o := SendStep(s, clientId, steps[0].0, steps[0].1);
      RunPacing(o.next, clientId, steps[1..]);
    }
  }

  /** An unreachable controller: a call that cannot connect returns the sentinel and sends nothing. */
  lemma UnreachableGivesSentinel(s: Session, clientId: int, c: Call, w: Wire)
    requires !s.connected && !w.connectOk
    ensures var o := SendStep(s, clientId, c, w);
      o.reply == Empty && o.sent.None? && !o.next.connected && o.next.requestId == s.requestId
  {
  }

  /**
   * What `response and 'data' in response` followed by `response['data']`
   * does with a reply: there is no payload, there is one, the `in` test
   * raises `TypeError` (a truthy number or boolean), or the test passes and
   * the indexing raises `TypeError` (a string containing "data", a list
   * holding the string "data").
   */
  datatype DataLookup = Absent | Present(payload: Json) | InRaises | IndexRaises

  function DataLookupOf(reply: Json): (r: DataLookup)
    ensures !Truthy(reply) ==> r == Absent
    ensures reply.JObj? ==> (r.Present? <==> HasKey(reply.entries, "data"))
    ensures r.Present? ==> reply.JObj? && Some(r.payload) == Lookup(reply.entries, "data")
  {
    if !Truthy(reply) then Absent
    else match reply
      case JObj(es) => if HasKey(es, "data") then Present(Lookup(es, "data").value) else Absent
      case JStr(s) => if Occurs("data", s) then IndexRaises else Absent
      case JArr(items) => if JStr("data") in items then IndexRaises else Absent
      case _ => InRaises
  }

  /**
   * Which replies make the test raise: the `in` test on a truthy number or
   * boolean, and the indexing on a string containing "data" or a list
   * holding it. A dict never raises.
   */
  lemma DataLookupRaises(reply: Json)
    ensures DataLookupOf(reply) == InRaises <==> IsNumber(reply) && Truthy(reply)
    ensures DataLookupOf(reply) == IndexRaises <==>
      || (reply.JStr? && Occurs("data", reply.s))
      || (reply.JArr? && JStr("data") in reply.items)
    ensures reply.JObj? ==> DataLookupOf(reply) == Absent || DataLookupOf(reply).Present?
  {
  }

  /**
   * The payload callers read from a reply where an exception in the test is
   * caught and treated like a missing payload: absent for the `{}` sentinel
   * and for any reply that is not a dict with a 'data' key.
   */
  function ResponseData(reply: Json): (r: Option<Json>)
    ensures r.Some? <==> reply.JObj? && HasKey(reply.entries, "data")
    ensures r.Some? ==> Some(r.value) == Lookup(reply.entries, "data")
    ensures reply == Empty ==> r.None?
  {
    match DataLookupOf(reply)
    case Present(payload) => Some(payload)
    case _ => None
  }

  /** The payload is the value of the first 'data' entry, and there is none when no entry carries that key. */
  lemma ResponseDataFirst(es: Entries)
    ensures (forall i :: 0 <= i < |es| ==> es[i].0 != "data") ==> ResponseData(JObj(es)).None?
    ensures forall i :: 0 <= i < |es| && es[i].0 == "data" && (forall j :: 0 <= j < i ==> es[j].0 != "data") ==>
      ResponseData(JObj(es)) == Some(es[i].1)
  {
    if forall i :: 0 <= i < |es| ==> es[i].0 != "data" {
      LookupMissing(es, "data");
    }
    forall i | 0 <= i < |es| && es[i].0 == "data" && (forall j :: 0 <= j < i ==> es[j].0 != "data")
      ensures ResponseData(JObj(es)) == Some(es[i].1)
    {
      LookupFirst(es, i, "data");
    }
  }

  /** The client session: `websocket` is modelled by whether a socket is held. */
  class AmaranApi {
    const host: string
    const port: int
    const apiKey: string
    const clientId: int
    var websocket: bool
    var requestId: nat
    var lastRequestTime: int
    /** The envelopes whose `websocket.send` completed, in order. */
    var sent: seq<Json>
    /** Every call of `send_request`, in order, whatever became of it. */
    ghost var calls: seq<Call>

    function State(): Session
      reads this
    {
      Session(websocket, requestId, lastRequestTime)
    }

    /** The call `c` was made with the world behaving as `w`, and `response` is what it returned. */
    twostate predicate Performed(c: Call, w: Wire, response: Json)
      reads this
    {
      var o := SendStep(old(State()), clientId, c, w);
      && State() == o.next
      && response == o.reply
      && sent == old(sent) + (if o.sent.Some? then [o.sent.value] else [])
      && calls == old(calls) + [c]
    }

    constructor (host: string, port: int, apiKey: string)
      ensures this.host == host && this.port == port && this.apiKey == apiKey
      ensures clientId == 1
      ensures State() == InitialSession
      ensures sent == [] && calls == []
    {
      this.host := host;
      this.port := port;
      this.apiKey := apiKey;
      websocket := false;
      clientId := 1;
      requestId := 1;
      lastRequestTime := 0;
      sent := [];
      calls := [];
    }

    /** Opens the socket; `ok` is whether the connection attempt succeeds. A failure keeps the previous handle. */
    method Connect(ok: bool) returns (connected: bool)
      modifies this`websocket
      ensures connected == ok
      ensures websocket == (old(websocket) || ok)
    {
      if ok {
        websocket := true;
      }
      connected := ok;
    }

    method SendRequest(action: string, nodeId: Option<string>, args: Entries, w: Wire) returns (response: Json)
      modifies this
      ensures Performed(Call(action, nodeId, args), w, response)
    {
      calls := calls + [Call(action, nodeId, args)];
      // pacing: sleep until the interval since the last recorded time has passed
      var current := w.now;
      var elapsed := current - lastRequestTime;
      if elapsed < MinRequestInterval {
        current := current + (MinRequestInterval - elapsed);
      }
      lastRequestTime := current + w.slack;

      if !websocket {
        var connected := Connect(w.connectOk);
        if !connected {
          return Empty;
        }
      }

      var token := w.token;
      if token == "" {
        return Empty;
      }

      var request := Envelope(clientId, requestId, action, token, nodeId, args);
      if !w.sendOk {
        websocket := false;
        return Empty;
      }
      sent := sent + [request];
      requestId := requestId + 1;
      match w.reply {
        case None =>
          websocket := false;
          response := Empty;
        case Some(r) =>
          response := r;
      }
    }

    method GetDeviceList(w: Wire) returns (response: Json)
      modifies this
      ensures Performed(Call("get_device_list", None, []), w, response)
    {
      response := SendRequest("get_device_list", None, [], w);
    }

    method GetNodeConfig(nodeId: string, w: Wire) returns (response: Json)
      modifies this
      ensures Performed(Call("get_node_config", Some(nodeId), []), w, response)
    {
      response := SendRequest("get_node_config", Some(nodeId), [], w);
    }

    method GetQuickshotList(w: Wire) returns (response: Json)
      modifies this
      ensures Performed(Call("get_quickshot_list", None, []), w, response)
    {
      response := SendRequest("get_quickshot_list", None, [], w);
    }

    method GetPresetList(w: Wire) returns (response: Json)
      modifies this
      ensures Performed(Call("get_preset_list", None, []), w, response)
    {
      response := SendRequest("get_preset_list", None, [], w);
    }

    method Close()
      modifies this`websocket
      ensures !websocket
    {
      if websocket {
        websocket := false;
      }
    }
  }
}
