/**
 * The older registry of drivers/common.go: constructors take only the modem's
 * host and cannot fail, and the base interface includes SetHost and GetHost.
 */
module DriversCommon {
  import opened Wrappers
  import opened DriverErrors
  import DriverCtl

  const BaseModem: set<string> := {"SetHost", "GetHost", "GetModel"}
  const ModemCell: set<string> := BaseModem + {"GetCellConnStatus", "ConnectCell", "DisconnectCell"}
  const ModemSMS: set<string> := BaseModem + {"SendSMS"}

  /** A constructor: the modem's host in, a handle out. */
  type Ctor<H> = string -> H

  /** The registry; `drivers` is the package variable of the same name. */
  class Registry<H> {
    var drivers: map<string, Ctor<H>>

    constructor ()
      ensures drivers == map[]
    {
      drivers := map[];
    }

    function isRegistered(name: string): (r: bool)
      reads this
      ensures r <==> name in drivers.Keys
    {
      name in drivers
    }

    /** Adds `name`; registering a name twice panics and leaves the map as it was. */
    method registerDriver(name: string, generator: Ctor<H>) returns (panicked: Option<string>)
      modifies this
      ensures old(name in drivers) ==> panicked == Some(DriverCtl.PanicMessage(name)) && drivers == old(drivers)
      ensures old(name !in drivers) ==> panicked == None && drivers == old(drivers)[name := generator]
    {
      if isRegistered(name) {
        return Some(DriverCtl.PanicMessage(name));
      }
      drivers := drivers[name := generator];
      return None;
    }

    /** An unknown model fails with ErrUnknownModel; a known one always succeeds with constructor(host). */
    method GetModemDriver(model: string, host: string) returns (r: Result<H, Error>)
      ensures r.Failure? <==> model !in drivers
      ensures r.Failure? ==> r.error == ErrUnknownModel
      ensures r.Success? ==> r.value == drivers[model](host)
    {
      if !isRegistered(model) {
        return Failure(ErrUnknownModel);
      }
      return Success(drivers[model](host));
    }

    /** Every registered name exactly once, in no particular order. */
    method GetAvailableDrivers() returns (keys: seq<string>)
      ensures |keys| == |drivers|
      ensures forall k :: k in keys <==> k in drivers
      ensures DriverCtl.Distinct(keys)
    {
      keys := DriverCtl.CollectKeys(drivers.Keys);
    }
  }
}
