/**
 * The driver registry of drivers/driver_ctl.go: a process-wide map from model
 * name to constructor, and the capability interfaces a handle may satisfy.
 */
module DriverCtl {
  import opened Wrappers
  import opened DriverErrors
  import Logging

  /**
   * Go interfaces are satisfied structurally: a handle can be narrowed to an
   * interface when its dynamic type has every method the interface lists.
   */
  predicate Implements(methods: set<string>, iface: set<string>) {
    iface <= methods
  }

  const BaseModem: set<string> := {"GetModel"}
  const ModemCell: set<string> := BaseModem + {"GetCellConnStatus", "ConnectCell", "DisconnectCell"}
  const ModemSMS: set<string> := BaseModem + {"SendSMS", "ReadAllSMS"}

  /** A constructor: configuration and logger in, a handle or the constructor's own error out. */
  type Ctor<!Cfg, H> = (Cfg, Logging.Logger) -> Result<H, Error>

  function PanicMessage(name: string): string {
    "attempted to register " + name + " twice"
  }

  /** The keys of `keys` are pairwise distinct. */
  predicate Distinct(keys: seq<string>) {
    forall i, j :: 0 <= i < j < |keys| ==> keys[i] != keys[j]
  }

  lemma DistinctAppend(keys: seq<string>, k: string)
    requires Distinct(keys) && k !in keys
    ensures Distinct(keys + [k])
  {
  }

  /**
   * The loop of every GetAvailableDrivers: a slice as long as the map, filled
   * with one key per iteration over it, in whatever order the iteration takes.
   */
  method CollectKeys(names: set<string>) returns (keys: seq<string>)
    ensures |keys| == |names|
    ensures forall k :: k in keys <==> k in names
    ensures Distinct(keys)
  {
    var arr := new string[|names|];
    var rest := names;
    var i := 0;
    while rest != {}
      invariant 0 <= i <= arr.Length
      invariant i + |rest| == arr.Length
      invariant rest <= names
      invariant forall j :: 0 <= j < i ==> arr[j] in names && arr[j] !in rest
      invariant forall k :: k in names && k !in rest ==> k in arr[..i]
      invariant Distinct(arr[..i])
      decreases |rest|
    {
      var k :| k in rest;
      assert k !in arr[..i];
      DistinctAppend(arr[..i], k);
      arr[i] := k;
      assert arr[..i + 1] == arr[..i] + [k];
      i := i + 1;
      rest := rest - {k};
    }
    keys := arr[..];
  }

  /** The registry; `drivers` is the package variable `Drivers`. */
  class Registry<!Cfg, H> {
    var drivers: map<string, Ctor<Cfg, H>>

    constructor ()
      ensures drivers == map[]
    {
      drivers := map[];
    }

    function IsRegistered(name: string): (r: bool)
      reads this
      ensures r <==> name in drivers.Keys
    {
      name in drivers
    }

    /**
     * Adds `name`; a second registration under the same name panics (the result
     * carries the panic message) and leaves the map as it was.
     */
    method RegisterDriver(name: string, generator: Ctor<Cfg, H>) returns (panicked: Option<string>)
      modifies this
      ensures old(name in drivers) ==> panicked == Some(PanicMessage(name)) && drivers == old(drivers)
      ensures old(name !in drivers) ==> panicked == None && drivers == old(drivers)[name := generator]
    {
      if IsRegistered(name) {
        return Some(PanicMessage(name));
      }
      drivers := drivers[name := generator];
      return None;
    }

    /** An unknown model fails with ErrUnknownModel; a known one returns its constructor's answer unchanged. */
    method GetModemDriver(model: string, config: Cfg, logger: Logging.Logger) returns (r: Result<H, Error>)
      ensures model !in drivers ==> r == Failure(ErrUnknownModel)
      ensures model in drivers ==> r == drivers[model](config, logger)
    {
      if !IsRegistered(model) {
        return Failure(ErrUnknownModel);
      }
      return drivers[model](config, logger);
    }

    /** Every registered name exactly once, in no particular order. */
    method GetAvailableDrivers() returns (keys: seq<string>)
      ensures |keys| == |drivers|
      ensures forall k :: k in keys <==> k in drivers
      ensures Distinct(keys)
    {
      keys := CollectKeys(drivers.Keys);
    }
  }
}
