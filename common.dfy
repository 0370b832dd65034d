/**
 * The registry of package drivers/common (drivers/common/common.go): like the
 * older one, but registration hands the driver the shared driver configuration
 * and the driver logger.
 */
module Common {
  import opened Wrappers
  import opened DriverErrors
  import DriverCtl
  import Logging

  const BaseModem: set<string> := {"SetHost", "GetHost", "GetModel"}
  const ModemCell: set<string> := BaseModem + {"GetCellConnStatus", "ConnectCell", "DisconnectCell"}
  const ModemSMS: set<string> := BaseModem + {"SendSMS"}

  type Ctor<H> = string -> H

  /** What RegisterDriver gives back: the panic, or the configuration and logger for the driver. */
  datatype Registration<Cfg> = Panicked(msg: string) | Registered(config: Cfg, logger: Logging.Logger)

  /**
   * The package state: the registry map and, fixed at initialisation, the
   * "driver" configuration section and the package's loggers.
   */
  class Registry<Cfg, H> {
    var drivers: map<string, Ctor<H>>
    const driverConfig: Cfg
    const loggers: Logging.Loggers

    constructor (driverConfig: Cfg, loggers: Logging.Loggers)
      ensures drivers == map[]
      ensures this.driverConfig == driverConfig && this.loggers == loggers
    {
      drivers := map[];
      this.driverConfig := driverConfig;
      this.loggers := loggers;
    }

    function IsRegistered(name: string): (r: bool)
      reads this
      ensures r <==> name in drivers.Keys
    {
      name in drivers
    }

    /**
     * Adds `name` and returns the driver configuration and the driver logger; a
     * second registration under the same name panics before touching the map.
     */
    method RegisterDriver(name: string, generator: Ctor<H>) returns (r: Registration<Cfg>)
      modifies this
      ensures old(name in drivers) ==> r == Panicked(DriverCtl.PanicMessage(name)) && drivers == old(drivers)
      ensures old(name !in drivers) ==>
        drivers == old(drivers)[name := generator] &&
        r == Registered(driverConfig, Logging.GetDriverLogger(loggers, name))
    {
      if IsRegistered(name) {
        return Panicked(DriverCtl.PanicMessage(name));
      }
      drivers := drivers[name := generator];
      return Registered(driverConfig, Logging.GetDriverLogger(loggers, name));
    }

    /** An unknown model fails with ErrUnknownModel; a known one always succeeds with constructor(host). */
    method GetModemDriver(model: string, host: string) returns (r: Result<H, Error>)
      ensures r.Failure? <==> model !in drivers
      ensures r.Failure? ==> r.error == ErrUnknownModel
      ensures r.Success? ==> r.value == drivers[model](host)
    {
      if !IsRegistered(model) {
        return Failure(ErrUnknownModel);
      }
      return Success(drivers[model](host));
    }

    /** Every registered name exactly once, in no particular order. */
    method GetAvailableDrivers() returns (keys: seq<string>)
      ensures |keys| == |drivers|
      ensures forall k :: k in keys <==> k in drivers
      ensures DriverCtl.Distinct(keys)
    {
      keys := DriverCtl.CollectKeys(drivers.Keys);
    }
  }
}
