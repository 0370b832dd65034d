/**
 * The ZTE 8810FT protocol driver of drivers/zte8810ft.go. Every operation makes
 * one HTTP round trip; the round trip itself is a function parameter that maps
 * the request the driver builds to what came back. The wire-level pieces here
 * (request builders, the response checks, the ppp_status decoder, the
 * MessageBody framing and the sms_time field) are shared with the older driver
 * of drivers/zte8810ft/main.go, whose code repeats them.
 */
module Zte8810ft {
  import opened Wrappers
  import opened GoStd
  import opened DriverErrors
  import ConfigErrors
  import Helpers
  import Logging
  import DriverCtl

  const Model := "ZTE 8810FT"
  const SetPath := "/goform/goform_set_cmd_process"
  const GetPath := "/goform/goform_get_cmd_process"

  /** The method set of *zte8810ft. */
  const Methods: set<string> :=
    {"getBaseURL", "getNewRequest", "GetModel", "ConnectCell", "DisconnectCell",
     "GetCellConnStatus", "SendSMS", "ReadAllSMS"}

  // ---------------------------------------------------------------- requests

  /** A url.Values built by successive Add calls, in call order. */
  type Params = seq<(string, string)>

  datatype Url = Url(scheme: string, host: string, path: string, query: Params)

  /** An http.Header: canonical key to its list of values. */
  type Header = map<string, seq<string>>

  /** An outgoing request; `form` is the url-encoded body, if any. */
  datatype Request = Request(verb: string, url: Url, header: Header, form: Option<Params>)

  function AddHeader(h: Header, key: string, value: string): (r: Header)
    ensures r.Keys == h.Keys + {key}
    ensures r[key] == (if key in h then h[key] else []) + [value]
    ensures forall k :: k in h && k != key ==> r[k] == h[k]
  {
    h[key := (if key in h then h[key] else []) + [value]]
  }

  function Referer(host: string): string {
    "http://" + host + "/index.html"
  }

  /** getBaseURL: plain http to the configured host, with no query yet. */
  function BaseUrl(host: string, path: string): (u: Url)
    ensures u.scheme == "http" && u.host == host && u.path == path && u.query == []
  {
    Url("http", host, path, [])
  }

  /**
   * getNewRequest, once http.NewRequest has accepted the URL: the headers gain
   * the Referer of the configured host; method, URL, the other headers and the
   * body are kept as given.
   */
  function NewRequest(host: string, verb: string, url: Url, header: Header, form: Option<Params>): (r: Request)
    ensures r.verb == verb && r.url == url && r.form == form
    ensures r.header.Keys == header.Keys + {"Referer"}
    ensures r.header["Referer"] == (if "Referer" in header then header["Referer"] else []) + [Referer(host)]
    ensures forall k :: k in header && k != "Referer" ==> r.header[k] == header[k]
  {
    Request(verb, url, AddHeader(header, "Referer", Referer(host)), form)
  }

  /** The request goes to the configured host over http and carries the Referer the firmware demands. */
  predicate Addressed(r: Request, host: string) {
    && r.url.scheme == "http"
    && r.url.host == host
    && "Referer" in r.header
    && r.header["Referer"] == [Referer(host)]
  }

  function ConnectRequest(host: string): (r: Request)
    ensures Addressed(r, host) && r.verb == "GET" && r.url.path == SetPath
    ensures r.url.query == [("goformId", "CONNECT_NETWORK")] && r.form.None?
    ensures r.header.Keys == {"Referer"}
  {
    NewRequest(host, "GET", BaseUrl(host, SetPath).(query := [("goformId", "CONNECT_NETWORK")]), map[], None)
  }

  function DisconnectRequest(host: string): (r: Request)
    ensures Addressed(r, host) && r.verb == "GET" && r.url.path == SetPath
    ensures r.url.query == [("goformId", "DISCONNECT_NETWORK")] && r.form.None?
    ensures r.header.Keys == {"Referer"}
  {
    NewRequest(host, "GET", BaseUrl(host, SetPath).(query := [("goformId", "DISCONNECT_NETWORK")]), map[], None)
  }

  /** `nowMs` is time.Now().UnixMilli(), sent as a cache buster. */
  function StatusRequest(host: string, nowMs: int): (r: Request)
    ensures Addressed(r, host) && r.verb == "GET" && r.url.path == GetPath && r.form.None?
    ensures r.url.query == [("isTest", "False"), ("cmd", "ppp_status"), ("multi_data", "1"),
                            ("sms_received_flag_flag", "0"), ("sts_received_flag_flag", "0"), ("_", Itoa(nowMs))]
    ensures r.header.Keys == {"Referer"}
  {
    var query := [("isTest", "False"), ("cmd", "ppp_status"), ("multi_data", "1"),
                  ("sms_received_flag_flag", "0"), ("sts_received_flag_flag", "0"), ("_", Itoa(nowMs))];
    NewRequest(host, "GET", BaseUrl(host, GetPath).(query := query), map[], None)
  }

  function ListRequest(host: string, nowMs: int): (r: Request)
    ensures Addressed(r, host) && r.verb == "GET" && r.url.path == GetPath && r.form.None?
    ensures r.url.query == [("cmd", "sms_data_total"), ("page", "0"), ("data_per_page", "100"), ("mem_store", "1"),
                            ("tags", "12"), ("order_by", "order by id desc"), ("_", Itoa(nowMs))]
    ensures r.header.Keys == {"Referer"}
  {
    var query := [("cmd", "sms_data_total"), ("page", "0"), ("data_per_page", "100"), ("mem_store", "1"),
                  ("tags", "12"), ("order_by", "order by id desc"), ("_", Itoa(nowMs))];
    NewRequest(host, "GET", BaseUrl(host, GetPath).(query := query), map[], None)
  }

  /** The Content-Type of this driver's SMS send: one value naming type and charset. */
  const SendContentType: seq<string> := ["application/x-www-form-urlencoded; charset=UTF-8"]

  /**
   * The SMS send: a POST to the set endpoint with an empty query and exactly six
   * form fields; `contentType` is the header's list of values.
   */
  function SendRequest(host: string, contentType: seq<string>, phone: string, body: string, smsTime: string): (r: Request)
    ensures Addressed(r, host) && r.verb == "POST" && r.url.path == SetPath && r.url.query == []
    ensures r.form == Some([("goformId", "SEND_SMS"), ("ID", "-1"), ("encode_type", "GSM7_default"),
                            ("Number", phone), ("MessageBody", body), ("sms_time", smsTime)])
    ensures r.header.Keys == {"Content-Type", "Referer"} && r.header["Content-Type"] == contentType
  {
    var form := [("goformId", "SEND_SMS"), ("ID", "-1"), ("encode_type", "GSM7_default"),
                 ("Number", phone), ("MessageBody", body), ("sms_time", smsTime)];
    NewRequest(host, "POST", BaseUrl(host, SetPath), map["Content-Type" := contentType], Some(form))
  }

  // ---------------------------------------------------------------- responses

  /** What io.ReadAll and json.Unmarshal made of a body: a read failure, or the bytes and their decoding. */
  datatype Body<J> = ReadFailed | Read(raw: seq<byte>, decoded: Result<J, Error>)

  /** What httpClient.Do returned. */
  datatype Reply<J> = TransportFailed(err: Error) | Response(status: int, body: Body<J>)

  /** The newer driver's attempt: http.NewRequest may refuse the URL before anything is sent. */
  datatype Attempt<J> = Refused(err: Error) | Sent(reply: Reply<J>)

  function StatusError(code: int): Error {
    Msg("response status " + Itoa(code))
  }

  /** A reply that passes every check, with the decoded value it carries. */
  predicate Delivered<J>(reply: Reply<J>) {
    reply.Response? && reply.status == 200 && reply.body.Read? && reply.body.decoded.Success?
  }

  /**
   * How a JSON decoding error is reported: wrapped in an UnmarshalError carrying
   * the raw body under the operation's action, or as it is under `action`.
   */
  datatype JsonReport = Unmarshal | Plain(action: string)

  function JsonError(tag: string, report: JsonReport, raw: seq<byte>, err: Error): Error {
    match report
    case Unmarshal => ActionError(tag, UnmarshalError(raw, err))
    case Plain(action) => ActionError(action, err)
  }

  /**
   * The checks each operation makes on its round trip, in order: transport
   * error, status other than 200, body read, JSON decoding. `tag` names the
   * action of the transport and status failures.
   */
  function Receive<J>(tag: string, report: JsonReport, reply: Reply<J>): (r: Result<J, Error>)
    ensures r.Success? <==> Delivered(reply)
    ensures r.Success? ==> r.value == reply.body.decoded.value
    ensures r.Failure? ==> r.error == ErrUnknown || r.error.ActionError?
    ensures r == Failure(ErrUnknown) <==> reply.Response? && reply.status == 200 && reply.body.ReadFailed?
    ensures reply.TransportFailed? ==> r == Failure(ActionError(tag, reply.err))
    ensures reply.Response? && reply.status != 200 ==> r == Failure(ActionError(tag, StatusError(reply.status)))
    ensures reply.Response? && reply.status == 200 && reply.body.Read? && reply.body.decoded.Failure? ==>
      r == Failure(JsonError(tag, report, reply.body.raw, reply.body.decoded.error))
  {
    match reply
    case TransportFailed(err) => Failure(ActionError(tag, err))
    case Response(status, body) =>
      if status != 200 then Failure(ActionError(tag, StatusError(status)))
      else
        match body
        case ReadFailed => Failure(ErrUnknown)
        case Read(raw, Failure(err)) => Failure(JsonError(tag, report, raw, err))
        case Read(_, Success(v)) => Success(v)
  }

  /** A reply with a status other than 200 is judged on its status alone: the body is never looked at. */
  lemma ReceiveIgnoresBodyUnlessOk<J>(tag: string, report: JsonReport, status: int, b1: Body<J>, b2: Body<J>)
    requires status != 200
    ensures Receive(tag, report, Response(status, b1)) == Receive(tag, report, Response(status, b2))
  {
  }

  /** The newer driver's version: a refused request is reported under `reqTag`. */
  function Attempted<J>(reqTag: string, tag: string, report: JsonReport, a: Attempt<J>): (r: Result<J, Error>)
    ensures a.Refused? ==> r == Failure(ActionError(reqTag, a.err))
    ensures a.Sent? ==> r == Receive(tag, report, a.reply)
  {
    match a
    case Refused(err) => Failure(ActionError(reqTag, err))
    case Sent(reply) => Receive(tag, report, reply)
  }

  /** The final check of connect, disconnect and send: the `result` field must read "success". */
  function ExpectSuccess(tag: string, got: Result<string, Error>): (r: Option<Error>)
    ensures r.None? <==> got == Success("success")
    ensures got.Failure? ==> r == Some(got.error)
    ensures got.Success? && got.value != "success" ==> r == Some(ActionError(tag, Msg("result: " + got.value)))
  {
    match got
    case Failure(err) => Some(err)
    case Success(result) => if result != "success" then Some(ActionError(tag, Msg("result: " + result))) else None
  }

  /** A command reply that the device acknowledged with {"result": "success"}. */
  predicate Acknowledged(reply: Reply<string>) {
    Delivered(reply) && reply.body.decoded.value == "success"
  }

  // ---------------------------------------------------------------- link status

  type int8 = x: int | -128 <= x < 128

  /** The device's link state: 3 up, 2 connecting, 1 disconnecting, 0 down. */
  datatype LinkStatus = LinkStatus(State: int8)

  /** The ppp_status token the device reports for each state. */
  function PppToken(state: int): string
    requires 0 <= state <= 3
  {
    match state
    case 3 => "ppp_connected"
    case 2 => "ppp_connecting"
    case 1 => "ppp_disconnecting"
    case 0 => "ppp_disconnected"
  }

  /** The switch on ppp_status: four tokens map to states 3..0, anything else is ErrUnknown. */
  function DecodePppStatus(token: string): (r: Result<LinkStatus, Error>)
    ensures r.Success? <==> token in {"ppp_connected", "ppp_connecting", "ppp_disconnecting", "ppp_disconnected"}
    ensures r.Success? ==> 0 <= r.value.State <= 3 && PppToken(r.value.State) == token
    ensures r.Failure? ==> r.error == ErrUnknown
  {
    match token
    case "ppp_connected" => Success(LinkStatus(3))
    case "ppp_connecting" => Success(LinkStatus(2))
    case "ppp_disconnecting" => Success(LinkStatus(1))
    case "ppp_disconnected" => Success(LinkStatus(0))
    case _ => Failure(ErrUnknown)
  }

  /** Each of the four states is reported by exactly one token, and decoding recovers it. */
  lemma PppTokenRoundTrip(state: int, other: int)
    requires 0 <= state <= 3 && 0 <= other <= 3
    ensures DecodePppStatus(PppToken(state)) == Success(LinkStatus(state))
    ensures PppToken(state) == PppToken(other) ==> state == other
  {
  }

  // ---------------------------------------------------------------- SMS send framing

  /** One GSM-7 byte as the device wants it: "00" and the byte in %X. */
  function Unit(b: byte): (s: string)
    ensures |s| == (if b < 16 then 3 else 4)
  {
    "00" + FormatX(b)
  }

  /** The MessageBody of a send: the units of all bytes, in order. */
  function Frame(bs: seq<byte>): string {
    if bs == [] then "" else Unit(bs[0]) + Frame(bs[1..])
  }

  /** Framing distributes over concatenation. */
  lemma {:induction false} FrameAppend(a: seq<byte>, b: seq<byte>)
    ensures Frame(a + b) == Frame(a) + Frame(b)
  {
    if a == [] {
      assert a + b == b;
    } else {
      assert (a + b)[1..] == a[1..] + b;
      FrameAppend(a[1..], b);
    }
  }

  /** The formattedMsg loop of SendSMS. */
  method FormatMessageBody(encodedMsg: seq<byte>) returns (formattedMsg: string)
    ensures formattedMsg == Frame(encodedMsg)
  {
    formattedMsg := "";
    for i := 0 to |encodedMsg|
      invariant formattedMsg == Frame(encodedMsg[..i])
    {
      FrameAppend(encodedMsg[..i], [encodedMsg[i]]);
      assert encodedMsg[..i + 1] == encodedMsg[..i] + [encodedMsg[i]];
      formattedMsg := formattedMsg + "00" + FormatX(encodedMsg[i]);
    }
    assert encodedMsg[..|encodedMsg|] == encodedMsg;
  }

  /** How many bytes are below 0x10, and so get only three characters. */
  function CountLow(bs: seq<byte>): (n: nat)
    ensures n <= |bs|
  {
    if bs == [] then 0 else (if bs[0] < 16 then 1 else 0) + CountLow(bs[1..])
  }

  /** Four characters per byte, less one per byte below 0x10; never a lower-case hex digit. */
  lemma {:induction false} FrameShape(bs: seq<byte>)
    ensures |Frame(bs)| == 4 * |bs| - CountLow(bs)
    ensures forall i :: 0 <= i < |Frame(bs)| ==> IsUpperHexDigit(Frame(bs)[i])
  {
    if bs != [] {
      FrameShape(bs[1..]);
      var u, rest := Unit(bs[0]), Frame(bs[1..]);
      assert Frame(bs) == u + rest;
      forall i | 0 <= i < |Frame(bs)| ensures IsUpperHexDigit(Frame(bs)[i]) {
        if i >= |u| { assert Frame(bs)[i] == rest[i - |u|]; }
        else if i >= 2 { assert Frame(bs)[i] == FormatX(bs[0])[i - 2]; }
      }
    }
  }

  /** The byte pairs (0x00, b) that the units of bytes from 0x10 up stand for. */
  function Pairs(bs: seq<byte>): seq<byte> {
    if bs == [] then [] else [0, bs[0]] + Pairs(bs[1..])
  }

  /** The unit of a byte from 0x10 up decodes to the pair (0x00, b), whatever follows it. */
  lemma UnitDecodes(b: byte, rest: string)
    requires b >= 16
    ensures HexDecode(Unit(b) + rest) ==
      if HexDecode(rest).None? then None else Some([0, b] + HexDecode(rest).value)
  {
    var hi, lo := HexDigit(b / 16), HexDigit(b % 16);
    assert Unit(b) + rest == ['0', '0'] + ([hi, lo] + rest);
    HexDecodeCons(hi, lo, rest);
    HexPair(b);
    HexDecodeCons('0', '0', [hi, lo] + rest);
    assert HexValue('0') == 0;
    if HexDecode(rest).Some? {
      var v := HexDecode(rest).value;
      assert HexDecode([hi, lo] + rest) == Some([b] + v);
      assert [0] + ([b] + v) == [0, b] + v;
    }
  }

  /** For bytes from 0x10 up, hex-decoding the MessageBody gives back (0x00, b) for each byte b. */
  lemma {:induction false} FrameDecodesToPairs(bs: seq<byte>)
    requires forall i :: 0 <= i < |bs| ==> bs[i] >= 16
    ensures HexDecode(Frame(bs)) == Some(Pairs(bs))
  {
    if bs != [] {
      assert forall i :: 0 <= i < |bs[1..]| ==> bs[1..][i] == bs[i + 1];
      FrameDecodesToPairs(bs[1..]);
      UnitDecodes(bs[0], Frame(bs[1..]));
    }
  }

  /** A byte below 0x10 (a line feed is GSM-7 0x0A) gives three characters, which do not hex-decode. */
  lemma LowSeptetUnaligned()
    ensures Frame([0x0A]) == "00A"
    ensures HexDecode(Frame([0x0A])).None?
  {
    assert Frame([0x0A]) == "00A" + Frame([]);
    assert "00A"[2..] == "A";
  }

  // ---------------------------------------------------------------- sms_time

  /** The local wall-clock time of a send and the zone's offset from UTC in seconds. */
  datatype LocalTime = LocalTime(year: nat, month: nat, day: nat, hour: nat, minute: nat, second: nat, zoneOffset: int)

  /** t.Format("06;01;02;15;04;05;"). */
  function Stamp(t: LocalTime): string {
    Pad2(t.year % 100) + ";" + Pad2(t.month) + ";" + Pad2(t.day) + ";" +
    Pad2(t.hour) + ";" + Pad2(t.minute) + ";" + Pad2(t.second) + ";"
  }

  /** The zone field: a "+" only for offsets from 0 up, then Go's truncating tz/3600. */
  function ZoneSuffix(tz: int): string {
    if tz >= 0 then "+" + Itoa(Quo(tz, 3600)) else Itoa(Quo(tz, 3600))
  }

  function SmsTime(t: LocalTime): string {
    Stamp(t) + ZoneSuffix(t.zoneOffset)
  }

  /**
   * What the zone field says: "+h" east of UTC, "-h" for offsets of an hour or
   * more west of it, and "0" without sign for offsets strictly between -3600 and 0.
   */
  lemma ZoneSuffixCases(tz: int)
    ensures tz >= 0 ==> ZoneSuffix(tz) == "+" + Decimal(tz / 3600)
    ensures tz <= -3600 ==> ZoneSuffix(tz) == "-" + Decimal((-tz) / 3600)
    ensures -3600 < tz < 0 ==> ZoneSuffix(tz) == "0"
  {
    if tz >= 0 {
      assert Quo(tz, 3600) == tz / 3600 >= 0;
    } else if tz <= -3600 {
      var q := (-tz) / 3600;
      assert q >= 1;
      assert Quo(tz, 3600) == -q;
    } else {
      assert (-tz) / 3600 == 0;
      assert Quo(tz, 3600) == 0;
      assert Decimal(0) == "0";
    }
  }

  /** A whole number of hours k west of UTC is written "-k"; Dafny's Euclidean -1800/3600 would give "-1". */
  lemma ZoneSuffixWholeHours(k: nat)
    requires k > 0
    ensures ZoneSuffix(-3600 * k) == "-" + Decimal(k)
    ensures ZoneSuffix(-1800) == "0" && Quo(-1800, 3600) == 0
  {
    var tz := -3600 * k;
    assert -tz == 3600 * k;
    assert (-tz) / 3600 == k;
    assert Quo(tz, 3600) == -(k as int);
  }

  // ---------------------------------------------------------------- driver

  /** The viper settings the driver reads ("host", "iface"). */
  type Settings = map<string, string>

  function GetString(config: Settings, key: string): string {
    if key in config then config[key] else ""
  }

  /** The HTTP client: default, or dialling from the bound interface's IPv4 address. */
  datatype Client = DefaultClient | BoundClient(source: Helpers.IP)

  datatype Driver = Driver(config: Settings, logger: Logging.Logger, httpClient: Client)

  /** The host every request goes to, read from the configuration at each call. */
  function Host(d: Driver): string {
    GetString(d.config, "host")
  }

  /** The machine's network: interface lookups and whether a local address resolves for dialling. */
  datatype Network = Network(interfaces: string -> Helpers.AddrLookup, resolve: Helpers.IP -> Option<Error>)

  /**
   * newZTE8810FT: without "iface" it always succeeds with the default client.
   * With it, an interface without a usable IPv4 address gives a ConfigError for
   * key "iface"; otherwise the client dials from the interface's first IPv4
   * address, unless that address does not resolve, whose error is returned as is.
   */
  function NewZTE8810FT(config: Settings, logger: Logging.Logger, net: Network): (r: Result<Driver, Error>)
    ensures "iface" !in config ==> r == Success(Driver(config, logger, DefaultClient))
    ensures "iface" in config && Helpers.InterfaceIPv4(config["iface"], net.interfaces(config["iface"])).Failure? ==>
      r == Failure(ConfigError(ConfigErrors.ConfigError("iface", config["iface"], Some(ConfigErrors.ErrInvalidValue))))
    ensures "iface" in config && Helpers.InterfaceIPv4(config["iface"], net.interfaces(config["iface"])).Success? ==>
      var addr := Helpers.InterfaceIPv4(config["iface"], net.interfaces(config["iface"])).value;
      && (net.resolve(addr).Some? ==> r == Failure(net.resolve(addr).value))
      && (net.resolve(addr).None? ==> r == Success(Driver(config, logger, BoundClient(addr))))
    ensures r.Success? ==> r.value.config == config && r.value.logger == logger
    ensures r.Success? ==> (r.value.httpClient.BoundClient? <==> "iface" in config)
    ensures r.Success? && r.value.httpClient.BoundClient? ==> |r.value.httpClient.source| == 4
  {
    if "iface" in config then
      var ifaceName := GetString(config, "iface");
      match Helpers.InterfaceIPv4(ifaceName, net.interfaces(ifaceName))
      case Failure(_) =>
        Failure(ConfigError(ConfigErrors.ConfigError("iface", ifaceName, Some(ConfigErrors.ErrInvalidValue))))
      case Success(ifaceAddr) =>
        match net.resolve(ifaceAddr)
        case Some(err) => Failure(err)
        case None => Success(Driver(config, logger, BoundClient(ifaceAddr)))
    else
      Success(Driver(config, logger, DefaultClient))
  }

  /** init: registers the constructor under "ZTE 8810FT". */
  method Init(reg: DriverCtl.Registry<Settings, Driver>, net: Network) returns (panicked: Option<string>)
    modifies reg
    ensures old(Model !in reg.drivers) ==>
      && panicked == None
      && reg.drivers.Keys == old(reg.drivers).Keys + {Model}
      && (forall k :: k in old(reg.drivers) ==> reg.drivers[k] == old(reg.drivers)[k])
      && forall c, l :: reg.drivers[Model](c, l) == NewZTE8810FT(c, l, net)
    ensures old(Model in reg.drivers) ==>
      panicked == Some(DriverCtl.PanicMessage(Model)) && reg.drivers == old(reg.drivers)
  {
    panicked := reg.RegisterDriver(Model, (c, l) => NewZTE8810FT(c, l, net));
  }

  /** A ZTE handle can be narrowed to every capability interface. */
  lemma ImplementsAll()
    ensures DriverCtl.Implements(Methods, DriverCtl.BaseModem)
    ensures DriverCtl.Implements(Methods, DriverCtl.ModemCell)
    ensures DriverCtl.Implements(Methods, DriverCtl.ModemSMS)
  {
  }

  function GetModel(d: Driver): (r: string)
    ensures r == Model
  {
    Model
  }

  /** ConnectCell: nil exactly when the device acknowledges with "success"; otherwise a "connect" failure or bare ErrUnknown. */
  function ConnectCell(d: Driver, rt: Request -> Attempt<string>): (r: Option<Error>)
    ensures r.None? <==> rt(ConnectRequest(Host(d))).Sent? && Acknowledged(rt(ConnectRequest(Host(d))).reply)
    ensures r.Some? ==> r.value == ErrUnknown || (r.value.ActionError? && r.value.action == "connect")
    ensures r == ExpectSuccess("connect", Attempted("connect", "connect", Unmarshal, rt(ConnectRequest(Host(d)))))
  {
    ExpectSuccess("connect", Attempted("connect", "connect", Unmarshal, rt(ConnectRequest(Host(d)))))
  }

  function DisconnectCell(d: Driver, rt: Request -> Attempt<string>): (r: Option<Error>)
    ensures r.None? <==> rt(DisconnectRequest(Host(d))).Sent? && Acknowledged(rt(DisconnectRequest(Host(d))).reply)
    ensures r.Some? ==> r.value == ErrUnknown || (r.value.ActionError? && r.value.action == "disconnect")
    ensures r == ExpectSuccess("disconnect", Attempted("disconnect", "disconnect", Unmarshal, rt(DisconnectRequest(Host(d)))))
  {
    ExpectSuccess("disconnect", Attempted("disconnect", "disconnect", Unmarshal, rt(DisconnectRequest(Host(d)))))
  }

  /** GetCellConnStatus: the response checks tagged "status", then the ppp_status decoder. */
  function GetCellConnStatus(d: Driver, nowMs: int, rt: Request -> Attempt<string>): (r: Result<LinkStatus, Error>)
    ensures var a := rt(StatusRequest(Host(d), nowMs));
      r.Success? <==> a.Sent? && Delivered(a.reply) && DecodePppStatus(a.reply.body.decoded.value).Success?
    ensures var a := rt(StatusRequest(Host(d), nowMs));
      a.Sent? && Delivered(a.reply) ==> r == DecodePppStatus(a.reply.body.decoded.value)
    ensures var a := rt(StatusRequest(Host(d), nowMs));
      !(a.Sent? && Delivered(a.reply)) ==> r == Failure(Attempted("status", "status", Unmarshal, a).error)
  {
    match Attempted("status", "status", Unmarshal, rt(StatusRequest(Host(d), nowMs)))
    case Failure(err) => Failure(err)
    case Success(token) => DecodePppStatus(token)
  }

  /**
   * SendSMS: a GSM-7 encoding failure ends the call before any request exists;
   * otherwise the request carries the framed body and the sms_time field, and
   * its reply is checked like a command's.
   */
  method SendSMS(d: Driver, phone: string, message: string, gsm7: string -> Result<seq<byte>, Error>,
                 now: LocalTime, rt: Request -> Attempt<string>)
    returns (sent: Option<Request>, err: Option<Error>)
    ensures gsm7(message).Failure? ==> sent == None && err == Some(ActionError("sms send", gsm7(message).error))
    ensures gsm7(message).Success? ==>
      sent == Some(SendRequest(Host(d), SendContentType, phone, Frame(gsm7(message).value), SmsTime(now)))
    ensures sent.Some? ==> err == ExpectSuccess("sms send", Attempted("sms send", "sms send", Unmarshal, rt(sent.value)))
  {
    var encodedMsg := gsm7(message);
    if encodedMsg.Failure? {
      return None, Some(ActionError("sms send", encodedMsg.error));
    }
    var formattedMsg := FormatMessageBody(encodedMsg.value);
    var request := SendRequest(Host(d), SendContentType, phone, formattedMsg, SmsTime(now));
    sent := Some(request);
    err := ExpectSuccess("sms send", Attempted("sms send", "sms send", Unmarshal, rt(request)));
  }

  // ---------------------------------------------------------------- SMS list

  /** One record of the device's "messages" list. */
  datatype RawSMS = RawSMS(id: string, number: string, content: string, tag: string, date: string, draftGroupId: string)

  /** A time.Time, as far as the model needs one. */
  datatype Instant = Instant(unixSeconds: int, zoneOffset: int)

  datatype SMS = SMS(time: Instant, sender: string, message: string)

  const DateFailure := "failed to decode message datetime"
  const HexFailure := "failed to parse message content"
  const Ucs2Failure := "failed to decode message content"

  /**
   * One record: the date is parsed first, then the content is hex-decoded, then
   * read as UCS-2; the first failure names the step that failed.
   */
  function DecodeRecord(m: RawSMS, parseDate: string -> Option<Instant>, ucs2: seq<byte> -> Option<string>): (r: Result<SMS, Error>)
    ensures r.Success? <==> parseDate(m.date).Some? && HexDecode(m.content).Some? && ucs2(HexDecode(m.content).value).Some?
    ensures r.Success? ==> r.value == SMS(parseDate(m.date).value, m.number, ucs2(HexDecode(m.content).value).value)
    ensures r.Failure? ==> r.error in {ActionError("sms read", Msg(DateFailure)), ActionError("sms read", Msg(HexFailure)),
                                      ActionError("sms read", Msg(Ucs2Failure))}
    ensures parseDate(m.date).None? ==> r == Failure(ActionError("sms read", Msg(DateFailure)))
    ensures parseDate(m.date).Some? && HexDecode(m.content).None? ==>
      r == Failure(ActionError("sms read", Msg(HexFailure)))
    ensures parseDate(m.date).Some? && HexDecode(m.content).Some? && ucs2(HexDecode(m.content).value).None? ==>
      r == Failure(ActionError("sms read", Msg(Ucs2Failure)))
  {
    match parseDate(m.date)
    case None => Failure(ActionError("sms read", Msg(DateFailure)))
    case Some(date) =>
      match HexDecode(m.content)
      case None => Failure(ActionError("sms read", Msg(HexFailure)))
      case Some(rawBytes) =>
        match ucs2(rawBytes)
        case None => Failure(ActionError("sms read", Msg(Ucs2Failure)))
        case Some(text) => Success(SMS(date, m.number, text))
  }

  /** All records decoded, or the failure of the first that does not decode. */
  function DecodeAll(ms: seq<RawSMS>, parseDate: string -> Option<Instant>, ucs2: seq<byte> -> Option<string>): Result<seq<SMS>, Error> {
    if ms == [] then Success([])
    else
      match DecodeRecord(ms[0], parseDate, ucs2)
      case Failure(err) => Failure(err)
      case Success(first) =>
        match DecodeAll(ms[1..], parseDate, ucs2)
        case Failure(err) => Failure(err)
        case Success(rest) => Success([first] + rest)
  }

  /** When every record decodes, the list has one SMS per record, in the device's order. */
  lemma {:induction false} DecodeAllSucceeds(ms: seq<RawSMS>, parseDate: string -> Option<Instant>, ucs2: seq<byte> -> Option<string>)
    requires forall j :: 0 <= j < |ms| ==> DecodeRecord(ms[j], parseDate, ucs2).Success?
    ensures DecodeAll(ms, parseDate, ucs2).Success?
    ensures |DecodeAll(ms, parseDate, ucs2).value| == |ms|
    ensures forall j :: 0 <= j < |ms| ==> DecodeAll(ms, parseDate, ucs2).value[j] == DecodeRecord(ms[j], parseDate, ucs2).value
  {
    if ms != [] {
      DecodeAllSucceeds(ms[1..], parseDate, ucs2);
      var rest := DecodeAll(ms[1..], parseDate, ucs2).value;
      forall j | 0 <= j < |ms| ensures DecodeAll(ms, parseDate, ucs2).value[j] == DecodeRecord(ms[j], parseDate, ucs2).value {
        if j > 0 { assert ms[1..][j - 1] == ms[j]; }
      }
    }
  }

  /** A record that does not decode fails the whole list with its error, whatever follows it. */
  lemma {:induction false} DecodeAllFailsAt(ms: seq<RawSMS>, k: int, parseDate: string -> Option<Instant>, ucs2: seq<byte> -> Option<string>)
    requires 0 <= k < |ms|
    requires forall j :: 0 <= j < k ==> DecodeRecord(ms[j], parseDate, ucs2).Success?
    requires DecodeRecord(ms[k], parseDate, ucs2).Failure?
    ensures DecodeAll(ms, parseDate, ucs2) == Failure(DecodeRecord(ms[k], parseDate, ucs2).error)
  {
    if k > 0 {
      assert ms[1..][k - 1] == ms[k];
      forall j | 0 <= j < k - 1 ensures DecodeRecord(ms[1..][j], parseDate, ucs2).Success? {
        assert ms[1..][j] == ms[j + 1];
      }
      DecodeAllFailsAt(ms[1..], k - 1, parseDate, ucs2);
    }
  }

  /** The loop of ReadAllSMS that fills one SMS per record and returns at the first bad record. */
  method ProcessMessages(messages: seq<RawSMS>, parseDate: string -> Option<Instant>, ucs2: seq<byte> -> Option<string>)
    returns (r: Result<seq<SMS>, Error>)
    ensures r == DecodeAll(messages, parseDate, ucs2)
  {
    var processedSMS := new SMS[|messages|];
    for i := 0 to |messages|
      invariant forall j :: 0 <= j < i ==>
        && DecodeRecord(messages[j], parseDate, ucs2).Success?
        && processedSMS[j] == DecodeRecord(messages[j], parseDate, ucs2).value
    {
      var date := parseDate(messages[i].date);
      if date.None? {
        DecodeAllFailsAt(messages, i, parseDate, ucs2);
        return Failure(ActionError("sms read", Msg(DateFailure)));
      }
      var rawBytes := HexDecode(messages[i].content);
      if rawBytes.None? {
        DecodeAllFailsAt(messages, i, parseDate, ucs2);
        return Failure(ActionError("sms read", Msg(HexFailure)));
      }
      var runes := ucs2(rawBytes.value);
      if runes.None? {
        DecodeAllFailsAt(messages, i, parseDate, ucs2);
        return Failure(ActionError("sms read", Msg(Ucs2Failure)));
      }
      processedSMS[i] := SMS(date.value, messages[i].number, runes.value);
    }
    DecodeAllSucceeds(messages, parseDate, ucs2);
    assert processedSMS[..] == DecodeAll(messages, parseDate, ucs2).value;
    return Success(processedSMS[..]);
  }

  /**
   * How ReadAllSMS ends: it returns, or it panics on a nil dereference because
   * the body was the JSON literal null, which leaves the decoded pointer nil.
   */
  datatype ReadOutcome = NilDereference | Returned(result: Result<seq<SMS>, Error>)

  /**
   * ReadAllSMS: the response checks (a refused request and a JSON error are
   * tagged "sms read", the JSON error unwrapped; a transport or status failure
   * is tagged "status"), then the records decoded in order. The decoded body is
   * None when it was the JSON literal null.
   */
  method ReadAllSMS(d: Driver, nowMs: int, parseDate: string -> Option<Instant>, ucs2: seq<byte> -> Option<string>,
                    rt: Request -> Attempt<Option<seq<RawSMS>>>)
    returns (r: ReadOutcome)
    ensures var got := Attempted("sms read", "status", Plain("sms read"), rt(ListRequest(Host(d), nowMs)));
      && (got.Failure? ==> r == Returned(Failure(got.error)))
      && (got.Success? && got.value.None? ==> r == NilDereference)
      && (got.Success? && got.value.Some? ==> r == Returned(DecodeAll(got.value.value, parseDate, ucs2)))
  {
    var got := Attempted("sms read", "status", Plain("sms read"), rt(ListRequest(Host(d), nowMs)));
    if got.Failure? {
      return Returned(Failure(got.error));
    }
    if got.value.None? {
      return NilDereference;
    }
    var decoded := ProcessMessages(got.value.value, parseDate, ucs2);
    return Returned(decoded);
  }
}
