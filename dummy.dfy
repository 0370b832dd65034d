/** The no-op test driver of drivers/dummy.go, registered with the older registry. */
module Dummy {
  import opened Wrappers
  import opened DriverErrors
  import DriverCtl
  import DriversCommon

  const Name := "dummy"

  /** The method set of *dummy. */
  const Methods: set<string> := {"GetModel", "SetHost", "GetHost"}

  class Dummy {
    var host: string

    /** newDummy */
    constructor (host: string)
      ensures GetHost() == host
    {
      this.host := host;
    }

    function GetModel(): (r: string)
      ensures r == "Dummy"
    {
      "Dummy"
    }

    method SetHost(ip: string) returns (err: Option<Error>)
      modifies this
      ensures GetHost() == ip && err == None
    {
      host := ip;
      return None;
    }

    /** GetHost: the address last stored by the constructor or SetHost. */
    function GetHost(): (r: string)
      reads this
      ensures r == host
    {
      host
    }
  }

  /**
   * The package's init: registers the constructor under "dummy". Dafny function
   * values cannot allocate, so the value standing for newDummy comes from the caller.
   */
  method Init<H>(reg: DriversCommon.Registry<H>, newDummy: DriversCommon.Ctor<H>) returns (panicked: Option<string>)
    modifies reg
    ensures old(Name !in reg.drivers) ==> panicked == None && reg.drivers == old(reg.drivers)[Name := newDummy]
    ensures old(Name in reg.drivers) ==> panicked.Some? && reg.drivers == old(reg.drivers)
  {
    panicked := reg.registerDriver(Name, newDummy);
  }

  /** A dummy handle is a BaseModem but can be narrowed to neither ModemCell nor ModemSMS. */
  lemma OnlyBaseModem()
    ensures DriverCtl.Implements(Methods, DriversCommon.BaseModem)
    ensures !DriverCtl.Implements(Methods, DriversCommon.ModemCell)
    ensures !DriverCtl.Implements(Methods, DriversCommon.ModemSMS)
  {
    assert "ConnectCell" in DriversCommon.ModemCell && "ConnectCell" !in Methods;
    assert "SendSMS" in DriversCommon.ModemSMS && "SendSMS" !in Methods;
  }
}
