/**
 * The older ZTE 8810FT driver of package drivers/zte8810ft
 * (drivers/zte8810ft/main.go). It registers with the drivers/common registry,
 * holds the host in the handle itself, shares one package-wide HTTP client and
 * builds its requests directly, so building one cannot fail. The wire format is
 * the newer driver's, apart from the Content-Type header of an SMS send and the
 * body's length framing, which this model does not represent.
 */
module Zte8810ftLegacy {
  import opened Wrappers
  import opened DriverErrors
  import Wire = Zte8810ft
  import Common
  import DriverCtl
  import Logging
  import GoStd

  const Name := "ZTE 8810FT"

  /** The method set of *zte8810ft in this package. */
  const Methods: set<string> :=
    {"getBaseURL", "getNewRequest", "SetHost", "GetHost", "GetModel", "ConnectCell",
     "DisconnectCell", "GetCellConnStatus", "SendSMS"}

  /** A time.Second in nanoseconds. */
  const Second := 1_000_000_000

  /** The part of the "driver" configuration this package reads: GetDuration("cmd_ttl"), in nanoseconds. */
  datatype DriverConfig = DriverConfig(cmdTtl: int)

  /** The shared http.Client; only its timeout, in nanoseconds, matters here. */
  datatype Client = Client(timeout: int)

  /**
   * The Content-Type of this driver's SMS send: two header values, the type and
   * the charset, where the newer driver sends one.
   */
  const SendContentType: seq<string> := ["application/x-www-form-urlencoded", "charset=UTF-8"]

  /** A handle: the host is a field of its own, updated by SetHost. */
  class Zte8810ft {
    var host: string
    const basePath: string

    constructor (host: string, basePath: string)
      ensures this.host == host && this.basePath == basePath
    {
      this.host := host;
      this.basePath := basePath;
    }

    method SetHost(host: string) returns (err: Option<Error>)
      modifies this
      ensures this.host == host && err == None
    {
      this.host := host;
      return None;
    }

    /** GetHost: the address last stored by the constructor or SetHost. */
    function GetHost(): (r: string)
      reads this
      ensures r == host
    {
      host
    }

    function GetModel(): (r: string)
      ensures r == Wire.Model
    {
      "ZTE 8810FT"
    }

    /**
     * ConnectCell: nil exactly when the device acknowledges; it answers as the
     * newer driver does for the same host when the request is never refused.
     */
    method ConnectCell(rt: Wire.Request -> Wire.Reply<string>) returns (err: Option<Error>)
      ensures err.None? <==> Wire.Acknowledged(rt(Wire.ConnectRequest(host)))
      ensures err.Some? ==> err.value == ErrUnknown || (err.value.ActionError? && err.value.action == "connect")
      ensures forall d: Wire.Driver {:trigger Wire.Host(d)} :: Wire.Host(d) == host ==>
        err == Wire.ConnectCell(d, req => Wire.Sent(rt(req)))
    {
      var request := Wire.ConnectRequest(host);
      err := Wire.ExpectSuccess("connect", Wire.Receive("connect", Wire.Unmarshal, rt(request)));
    }

    method DisconnectCell(rt: Wire.Request -> Wire.Reply<string>) returns (err: Option<Error>)
      ensures err.None? <==> Wire.Acknowledged(rt(Wire.DisconnectRequest(host)))
      ensures err.Some? ==> err.value == ErrUnknown || (err.value.ActionError? && err.value.action == "disconnect")
      ensures forall d: Wire.Driver {:trigger Wire.Host(d)} :: Wire.Host(d) == host ==>
        err == Wire.DisconnectCell(d, req => Wire.Sent(rt(req)))
    {
      var request := Wire.DisconnectRequest(host);
      err := Wire.ExpectSuccess("disconnect", Wire.Receive("disconnect", Wire.Unmarshal, rt(request)));
    }

    method GetCellConnStatus(nowMs: int, rt: Wire.Request -> Wire.Reply<string>) returns (r: Result<Wire.LinkStatus, Error>)
      ensures r.Success? <==>
        Wire.Delivered(rt(Wire.StatusRequest(host, nowMs))) &&
        Wire.DecodePppStatus(rt(Wire.StatusRequest(host, nowMs)).body.decoded.value).Success?
      ensures forall d: Wire.Driver {:trigger Wire.Host(d)} :: Wire.Host(d) == host ==>
        r == Wire.GetCellConnStatus(d, nowMs, req => Wire.Sent(rt(req)))
    {
      var request := Wire.StatusRequest(host, nowMs);
      var got := Wire.Receive("status", Wire.Unmarshal, rt(request));
      if got.Failure? {
        return Failure(got.error);
      }
      r := Wire.DecodePppStatus(got.value);
    }

    /**
     * SendSMS: as the newer driver's, but with the two-valued Content-Type and a
     * request that is always built.
     */
    method SendSMS(phone: string, message: string, gsm7: string -> Result<seq<GoStd.byte>, Error>,
                   now: Wire.LocalTime, rt: Wire.Request -> Wire.Reply<string>)
      returns (sent: Option<Wire.Request>, err: Option<Error>)
      ensures gsm7(message).Failure? ==> sent == None && err == Some(ActionError("sms send", gsm7(message).error))
      ensures gsm7(message).Success? ==>
        sent == Some(Wire.SendRequest(host, SendContentType, phone, Wire.Frame(gsm7(message).value), Wire.SmsTime(now)))
      ensures sent.Some? ==>
        && (err.None? <==> Wire.Acknowledged(rt(sent.value)))
        && err == Wire.ExpectSuccess("sms send", Wire.Receive("sms send", Wire.Unmarshal, rt(sent.value)))
    {
      var encodedMsg := gsm7(message);
      if encodedMsg.Failure? {
        return None, Some(ActionError("sms send", encodedMsg.error));
      }
      var formattedMsg := Wire.FormatMessageBody(encodedMsg.value);
      var request := Wire.SendRequest(host, SendContentType, phone, formattedMsg, Wire.SmsTime(now));
      sent := Some(request);
      err := Wire.ExpectSuccess("sms send", Wire.Receive("sms send", Wire.Unmarshal, rt(request)));
    }
  }

  /** The package variables: httpClient, and the config and logger init receives. */
  class Package {
    var httpClient: Option<Client>
    var config: Option<DriverConfig>
    var logger: Option<Logging.Logger>

    constructor ()
      ensures httpClient == None && config == None && logger == None
    {
      httpClient := None;
      config := None;
      logger := None;
    }

    /**
     * init: registers under "ZTE 8810FT" and keeps the configuration and logger
     * the registry hands back. The value standing for newZTE8810FT comes from the caller.
     */
    method Init(reg: Common.Registry<DriverConfig, Zte8810ft>, newZte: Common.Ctor<Zte8810ft>) returns (r: Common.Registration<DriverConfig>)
      modifies this, reg
      ensures old(Name !in reg.drivers) ==>
        && reg.drivers == old(reg.drivers)[Name := newZte]
        && config == Some(reg.driverConfig)
        && logger == Some(Logging.GetDriverLogger(reg.loggers, Name))
      ensures old(Name in reg.drivers) ==>
        r.Panicked? && reg.drivers == old(reg.drivers) && config == old(config) && logger == old(logger)
      ensures httpClient == old(httpClient)
    {
      r := reg.RegisterDriver(Name, newZte);
      if r.Registered? {
        config := Some(r.config);
        logger := Some(r.logger);
      }
    }

    /**
     * newZTE8810FT: the first call creates the shared client with a timeout of
     * cmd_ttl seconds; later calls keep it. Every handle posts to the set endpoint.
     */
    method NewZTE8810FT(host: string) returns (m: Zte8810ft)
      requires httpClient.None? ==> config.Some?
      modifies this
      ensures fresh(m) && m.host == host && m.basePath == Wire.SetPath
      ensures old(httpClient).Some? ==> httpClient == old(httpClient)
      ensures old(httpClient).None? ==> config.Some? && httpClient == Some(Client(config.value.cmdTtl * Second))
      ensures config == old(config) && logger == old(logger)
    {
      if httpClient.None? {
        httpClient := Some(Client(config.value.cmdTtl * Second));
      }
      m := new Zte8810ft(host, Wire.SetPath);
    }
  }

  /** Two handles made one after the other are distinct but share the client the first one created. */
  method SharedClient(p: Package, h1: string, h2: string) returns (m1: Zte8810ft, m2: Zte8810ft)
    requires p.config.Some?
    modifies p
    ensures m1 != m2 && m1.host == h1 && m2.host == h2
    ensures old(p.httpClient).None? ==> p.config.Some? && p.httpClient == Some(Client(p.config.value.cmdTtl * Second))
    ensures old(p.httpClient).Some? ==> p.httpClient == old(p.httpClient)
  {
    m1 := p.NewZTE8810FT(h1);
    var client := p.httpClient;
    m2 := p.NewZTE8810FT(h2);
    assert p.httpClient == client;
  }

  /** A legacy ZTE handle can be narrowed to every capability interface of its registry. */
  lemma ImplementsAll()
    ensures DriverCtl.Implements(Methods, Common.BaseModem)
    ensures DriverCtl.Implements(Methods, Common.ModemCell)
    ensures DriverCtl.Implements(Methods, Common.ModemSMS)
  {
  }

  /**
   * Among the parts of a request this model represents, the two drivers' SMS
   * sends differ only in the Content-Type header.
   */
  lemma SendDiffersOnlyInContentType(host: string, phone: string, body: string, smsTime: string)
    ensures var legacy := Wire.SendRequest(host, SendContentType, phone, body, smsTime);
      var newer := Wire.SendRequest(host, Wire.SendContentType, phone, body, smsTime);
      && legacy != newer
      && legacy.(header := newer.header) == newer
  {
    var legacy := Wire.SendRequest(host, SendContentType, phone, body, smsTime);
    var newer := Wire.SendRequest(host, Wire.SendContentType, phone, body, smsTime);
    assert legacy.header["Content-Type"] != newer.header["Content-Type"];
  }
}
