/** The no-op test driver of package drivers/dummy (drivers/dummy/main.go). */
module DummyPkg {
  import opened Wrappers
  import opened DriverErrors
  import DriverCtl
  import Common
  import Logging

  const Name := "dummy"

  /** The method set of *dummy. */
  const Methods: set<string> := {"GetModel", "SetHost", "GetHost"}

  class Dummy {
    var host: string

    /** newDummy */
    constructor (host: string)
      ensures GetHost() == host
    {
      this.host := host;
    }

    function GetModel(): (r: string)
      ensures r == "Dummy"
    {
      "Dummy"
    }

    method SetHost(ip: string) returns (err: Option<Error>)
      modifies this
      ensures GetHost() == ip && err == None
    {
      host := ip;
      return None;
    }

    /** GetHost: the address last stored by the constructor or SetHost. */
    function GetHost(): (r: string)
      reads this
      ensures r == host
    {
      host
    }
  }

  /** The package variable `logger`, set by init. */
  class Package {
    var logger: Option<Logging.Logger>

    constructor ()
      ensures logger == None
    {
      logger := None;
    }

    /**
     * init: registers under "dummy" through common.RegisterDriver and keeps the
     * logger it hands back. The value standing for newDummy comes from the caller.
     */
    method Init<Cfg, H>(reg: Common.Registry<Cfg, H>, newDummy: Common.Ctor<H>) returns (r: Common.Registration<Cfg>)
      modifies this, reg
      ensures old(Name !in reg.drivers) ==>
        reg.drivers == old(reg.drivers)[Name := newDummy] &&
        logger == Some(Logging.GetDriverLogger(reg.loggers, Name))
      ensures old(Name in reg.drivers) ==> r.Panicked? && reg.drivers == old(reg.drivers) && logger == old(logger)
    {
      r := reg.RegisterDriver(Name, newDummy);
      if r.Registered? {
        logger := Some(r.logger);
      }
    }
  }

  /** A dummy handle offers only the BaseModem methods: no ConnectCell, no SendSMS. */
  lemma OnlyBaseModem()
    ensures DriverCtl.Implements(Methods, Common.BaseModem)
    ensures !DriverCtl.Implements(Methods, Common.ModemCell)
    ensures !DriverCtl.Implements(Methods, Common.ModemSMS)
  {
    assert "ConnectCell" in Common.ModemCell && "ConnectCell" !in Methods;
    assert "SendSMS" in Common.ModemSMS && "SendSMS" !in Methods;
  }
}
