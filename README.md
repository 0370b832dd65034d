# usb-modem-cli driver layer in Dafny

This project models the driver layer of usb-modem-cli, a command-line tool that
drives USB LTE modems through their built-in web interface. The layer has four
parts:

- **Registries** map a model name to a driver constructor.
- **Drivers** turn the tool's commands into HTTP requests to the modem and
  interpret its JSON replies: connect, disconnect, link status, send SMS and
  read SMS.
- **Error values** are the ones the drivers return.
- **Small helpers** cover logging levels and finding a network interface's
  IPv4 address.

The repository keeps several generations of this layer side by side. Each Go
file therefore becomes a Dafny module of its own:

| module | Go file | form |
|---|---|---|
| `DriverCtl` | drivers/driver_ctl.go | registry class (constructors take config and logger) |
| `DriversCommon` | drivers/common.go | older registry class (constructors take a host) |
| `Common` | drivers/common/common.go | registry class that hands out config and logger |
| `DriverErrors` | drivers/errors.go | datatype of error values, `Unwrap`, `errors.Is`, messages |
| `ConfigErrors` | config/errors.go | `ConfigError` and its three-way `Error` |
| `Logging` | logging/logging.go | `strToLevel`, the shared driver logger |
| `Helpers` | drivers/helpers.go | first-IPv4 search, as a method with its loop |
| `Dummy`, `DummyPkg` | drivers/dummy.go, drivers/dummy/main.go | dummy driver class with a mutable host |
| `Zte8810ft` | drivers/zte8810ft.go | ZTE 8810FT driver: requests, reply checks, framing, SMS decoding |
| `Zte8810ftLegacy` | drivers/zte8810ft/main.go | older ZTE driver class, lazily created shared client |

Two helper modules support the others:

- `Wrappers` provides `Option` and `Result`.
- `GoStd` provides the small parts of Go's standard library the drivers rely on:
  - `%X` formatting;
  - hex decoding, as in `encoding/hex`;
  - `strconv.Itoa`;
  - Go's truncating integer division;
  - two-digit time fields.

How the model is built:

- **HTTP round trips.** Every driver operation takes the round trip as a
  function parameter. It maps the request the driver builds to what came back:
  - a transport error;
  - a status code;
  - a body that could not be read;
  - or the raw body together with its JSON decoding.

  With the round trip as a parameter, each operation is a deterministic function
  of its inputs. The Go code repeats the request builders, the reply checks, the
  `ppp_status` decoder, the MessageBody framing and the `sms_time` field in both
  ZTE drivers. The model defines each of them once, in `Zte8810ft`, and the
  older driver uses them from there.
- **Registries.** Each registry is a class with a `map` field. Registering a
  name twice is a Go panic. Here it is an explicit panic message, and the map
  stays as it was.
- **Capabilities.** The capability interfaces (`BaseModem`, `ModemCell`,
  `ModemSMS`) are method-name sets. A handle can be narrowed to an interface
  exactly when its method set contains the interface's set, which is how Go's
  structural interfaces behave.

## Model

| member | source | states |
|---|---|---|
| `ConfigErrors.Error` | config/errors.go:19-28 | An empty key renders as "". Otherwise a nil cause is a nil dereference. Key and value render as "key=K value=V: cause", and key without value as "key=K value=<nil>: cause". |
| `ConfigErrors.SentinelsDistinct` | config/errors.go:8-10 | The three configuration sentinels have pairwise different messages. |
| `ConfigErrors.EmptyValueLooksNil` | config/errors.go:21-24 | An empty value renders exactly like the literal value "<nil>". |
| `DriverErrors.Unwrap` | drivers/errors.go:19-35 | ActionError and UnmarshalError unwrap to their `Err` field, a strictly smaller error. No other error unwraps. |
| `DriverErrors.ErrorText` | drivers/errors.go:23-39 | An ActionError reads "action error: A failed with …". An UnmarshalError reads "failed to unmarshal response". A ConfigError renders as config/errors.go renders it. The only outcome that is not a text is the nil dereference of a ConfigError with a key and no cause. |
| `DriverErrors.ActionErrorIsCause` | drivers/errors.go:14-21 | `errors.Is` sees through ActionError, and through ActionError over UnmarshalError, to any error its cause is, whatever the raw data of the UnmarshalError. |
| `DriverErrors.UnmarshalTextConstant` | drivers/errors.go:37-39 | UnmarshalError's message does not depend on the raw data or the cause. |
| `DriverErrors.ActionTextPrefix` | drivers/errors.go:23-25 | An ActionError's message starts with "action error: " followed by the action. |
| `DriverErrors.SentinelsDistinct` | drivers/errors.go:9-11 | ErrUnknownModel, ErrNoDrivers and ErrUnknown have pairwise different messages. |
| `Logging.StrToLevel` | logging/logging.go:46-61 | The error is nil exactly for "debug", "info", "warn" and "error", and then the level carries that name. Any other string gives LevelInfo and "no S logging level". |
| `Logging.StrToLevelRoundTrip` | logging/logging.go:47-55 | Each level's name maps back to that level with no error, and the names are distinct. |
| `Logging.GetGeneralLogger` | logging/logging.go:63-65 | Returns the package's general logger. |
| `Logging.GetDriverLogger` | logging/logging.go:67-69 | Returns the package's driver logger. The name is not used. |
| `Logging.DriverLoggerShared` | logging/logging.go:67-69 | GetDriverLogger returns the one driver logger whatever name it is given. |
| `Helpers.To4` | drivers/helpers.go:29 | An address has a 4-byte form exactly when it is 4 bytes long or a 16-byte IPv4-mapped address. That form is its last four bytes. |
| `Helpers.FirstIPv4IsFirst` | drivers/helpers.go:28-32 | The search succeeds exactly when some address has an IPv4 form. It returns the form of the first such address; all addresses before it have none. |
| `Helpers.InterfaceIPv4` | drivers/helpers.go:11-40 | An interface or address lookup failure is returned unchanged. Otherwise the result is the first address with an IPv4 form, or the "no IPv4 address" error for the interface when there is none. A success is 4 bytes long. |
| `Helpers.GetInterfaceIPv4Addr` | drivers/helpers.go:11-40 | The loop computes the first-IPv4 search. Lookup failures are returned unchanged, and success yields a 4-byte address. |
| `DriverCtl.Registry.constructor` | drivers/driver_ctl.go:49 | The registry starts empty. |
| `DriverCtl.Registry.IsRegistered` | drivers/driver_ctl.go:57-60 | True exactly for the keys of the map. Reads the map only. |
| `DriverCtl.Registry.RegisterDriver` | drivers/driver_ctl.go:62-71 | A fresh name adds exactly name ↦ constructor and keeps every other entry. A duplicate panics with "attempted to register N twice" and leaves the map unchanged. |
| `DriverCtl.Registry.GetModemDriver` | drivers/driver_ctl.go:73-80 | An unknown model fails with ErrUnknownModel. A known model returns exactly what its constructor returns for the config and logger, error included. |
| `DriverCtl.CollectKeys` | drivers/driver_ctl.go:83-89 | The counter loop fills a slice as long as the map with every key exactly once. All three registries use it. |
| `DriverCtl.Registry.GetAvailableDrivers` | drivers/driver_ctl.go:82-92 | Returns as many names as the map has, each registered name exactly once. |
| `DriversCommon.Registry.constructor` | drivers/common.go:45 | The registry starts empty. |
| `DriversCommon.Registry.isRegistered` | drivers/common.go:47-51 | True exactly for the keys of the map. |
| `DriversCommon.Registry.registerDriver` | drivers/common.go:53-61 | A fresh name adds exactly its entry. A duplicate panics and leaves the map unchanged. |
| `DriversCommon.Registry.GetModemDriver` | drivers/common.go:63-69 | Fails exactly for an unknown model, with ErrUnknownModel. A known model always yields constructor(host). |
| `DriversCommon.Registry.GetAvailableDrivers` | drivers/common.go:71-81 | Returns as many names as the map has, each registered name exactly once. |
| `Common.Registry.constructor` | drivers/common/common.go:55-58 | The registry starts empty and keeps the driver configuration and the loggers. |
| `Common.Registry.IsRegistered` | drivers/common/common.go:60-64 | True exactly for the keys of the map. |
| `Common.Registry.RegisterDriver` | drivers/common/common.go:66-77 | A fresh name adds exactly its entry and returns the driver configuration and the driver logger. A duplicate panics before touching the map. |
| `Common.Registry.GetModemDriver` | drivers/common/common.go:79-86 | Fails exactly for an unknown model, with ErrUnknownModel. A known model always yields constructor(host). |
| `Common.Registry.GetAvailableDrivers` | drivers/common/common.go:88-98 | Returns as many names as the map has, each registered name exactly once. |
| `Dummy.Dummy.constructor` | drivers/dummy.go:15-17 | A new dummy reports the host it was made with. |
| `Dummy.Dummy.GetModel` | drivers/dummy.go:19-21 | Always "Dummy". |
| `Dummy.Dummy.SetHost` | drivers/dummy.go:23-26 | Afterwards GetHost returns the new host. The error is always nil. |
| `Dummy.Dummy.GetHost` | drivers/dummy.go:28-30 | Returns the stored host. |
| `Dummy.Init` | drivers/dummy.go:10-13 | Registers the constructor under "dummy". A second registration panics and leaves the map unchanged. |
| `Dummy.OnlyBaseModem` | drivers/dummy.go:4-30 | The dummy implements BaseModem but neither ModemCell nor ModemSMS. |
| `DummyPkg.Dummy.constructor` | drivers/dummy/main.go:24-27 | A new dummy reports the host it was made with. |
| `DummyPkg.Dummy.GetModel` | drivers/dummy/main.go:29-31 | Always "Dummy". |
| `DummyPkg.Dummy.SetHost` | drivers/dummy/main.go:33-36 | Afterwards GetHost returns the new host. The error is always nil. |
| `DummyPkg.Dummy.GetHost` | drivers/dummy/main.go:38-40 | Returns the stored host. |
| `DummyPkg.Package.constructor` | drivers/dummy/main.go:16-18 | The package logger starts unset. |
| `DummyPkg.Package.Init` | drivers/dummy/main.go:20-22 | Registers under "dummy" through the common registry and keeps the driver logger it is given. A duplicate leaves the map and the logger unchanged. |
| `DummyPkg.OnlyBaseModem` | drivers/dummy/main.go:9-40 | The dummy offers only BaseModem: no ConnectCell, no SendSMS. |
| `Zte8810ft.BaseUrl` | drivers/zte8810ft.go:78-80 | An http URL for the configured host and the given path, with an empty query. |
| `Zte8810ft.NewRequest` | drivers/zte8810ft.go:82-92 | Keeps the method, URL and body. The header keys gain "Referer", whose list gains "http://host/index.html" at its end. Every other header is unchanged. |
| `Zte8810ft.AddHeader` | drivers/zte8810ft.go:83 | Appends one value to the key's list. Every other key is unchanged. |
| `Zte8810ft.ConnectRequest` | drivers/zte8810ft.go:100-106 | A GET to the set endpoint over http at the configured host. The query is only goformId=CONNECT_NETWORK, and Referer is "http://host/index.html". |
| `Zte8810ft.DisconnectRequest` | drivers/zte8810ft.go:144-150 | The same as ConnectRequest, with goformId=DISCONNECT_NETWORK. |
| `Zte8810ft.StatusRequest` | drivers/zte8810ft.go:187-197 | A GET to the get endpoint with exactly the query isTest=False, cmd=ppp_status, multi_data=1, sms_received_flag_flag=0, sts_received_flag_flag=0 and _=the millisecond clock, in that order. Referer is the only header. |
| `Zte8810ft.ListRequest` | drivers/zte8810ft.go:317-328 | A GET to the get endpoint with exactly the query cmd=sms_data_total, page=0, data_per_page=100, mem_store=1, tags=12, order_by="order by id desc" and _=the millisecond clock, in that order. Referer is the only header. |
| `Zte8810ft.SendRequest` | drivers/zte8810ft.go:253-277 | A POST to the set endpoint with an empty query. The form holds exactly goformId, ID, encode_type, Number, MessageBody and sms_time in that order. Headers are only Content-Type and Referer. |
| `Zte8810ft.Receive` | drivers/zte8810ft.go:112-132 | Checks in order: transport error, then status other than 200, then body read, then JSON. Succeeds exactly when all pass, with the decoded value. A read failure is bare ErrUnknown. Transport and status failures are ActionErrors under the action. A JSON failure is reported as the operation specifies. |
| `Zte8810ft.ReceiveIgnoresBodyUnlessOk` | drivers/zte8810ft.go:115-120 | A status other than 200 decides the outcome whatever the body is. |
| `Zte8810ft.Attempted` | drivers/zte8810ft.go:106-109 | A request that http.NewRequest refuses fails under the request's action. Otherwise the reply checks apply. |
| `Zte8810ft.ExpectSuccess` | drivers/zte8810ft.go:134-138 | No error exactly when the decoded result is "success". Any other result r gives ActionError with "result: r". |
| `Zte8810ft.DecodePppStatus` | drivers/zte8810ft.go:226-238 | Succeeds exactly for the four ppp tokens, with state 3, 2, 1 or 0 as the token says. Every other token gives ErrUnknown. |
| `Zte8810ft.PppTokenRoundTrip` | drivers/zte8810ft.go:226-234 | Each state's token decodes back to that state, and different states have different tokens. |
| `Zte8810ft.Unit` | drivers/zte8810ft.go:251 | One byte frames as 3 characters below 0x10 and as 4 from 0x10 up. |
| `Zte8810ft.FrameAppend` | drivers/zte8810ft.go:248-252 | Framing distributes over concatenation. |
| `Zte8810ft.FormatMessageBody` | drivers/zte8810ft.go:249-252 | The accumulation loop builds exactly Frame of the encoded bytes. |
| `Zte8810ft.FrameShape` | drivers/zte8810ft.go:248-252 | MessageBody has four characters per byte, less one per byte below 0x10, and contains only upper-case hex digits. |
| `Zte8810ft.UnitDecodes` | drivers/zte8810ft.go:251 | The unit of a byte from 0x10 up hex-decodes to (0x00, b), whatever follows it. |
| `Zte8810ft.FrameDecodesToPairs` | drivers/zte8810ft.go:248-252 | When every byte is 0x10 or more, hex-decoding MessageBody gives the pair (0x00, b) for each byte b. |
| `Zte8810ft.LowSeptetUnaligned` | drivers/zte8810ft.go:251 | The byte 0x0A frames as "00A", which does not hex-decode. |
| `Zte8810ft.ZoneSuffixCases` | drivers/zte8810ft.go:264-269 | From 0 up the suffix is "+h". At -3600 or below it is "-h". Strictly between -3600 and 0 it is "0" with no sign. |
| `Zte8810ft.ZoneSuffixWholeHours` | drivers/zte8810ft.go:265-268 | k whole hours west of UTC give "-k". An offset of -1800 gives "0", because Go's division truncates -1800/3600 to 0. |
| `Zte8810ft.NewZTE8810FT` | drivers/zte8810ft.go:53-75 | Without "iface" it always succeeds with the default client. If the interface has no usable IPv4 address, it returns ConfigError{iface, name, ErrInvalidValue}. Otherwise a resolve error of that address is returned unchanged, and without one the client is bound to that address. A success keeps config and logger, is bound exactly when "iface" is set, and a bound client has a 4-byte source address. |
| `Zte8810ft.Init` | drivers/zte8810ft.go:49-51 | Registers the constructor under "ZTE 8810FT" and keeps every other entry. A duplicate panics with "attempted to register ZTE 8810FT twice" and leaves the map unchanged. |
| `Zte8810ft.ImplementsAll` | drivers/zte8810ft.go:78-314 | The driver implements BaseModem, ModemCell and ModemSMS. |
| `Zte8810ft.GetModel` | drivers/zte8810ft.go:94-96 | Always "ZTE 8810FT". |
| `Zte8810ft.ConnectCell` | drivers/zte8810ft.go:98-139 | Nil exactly when the request was sent and the device acknowledged it with "success". Any other result is ErrUnknown or an ActionError tagged "connect". |
| `Zte8810ft.DisconnectCell` | drivers/zte8810ft.go:141-183 | Nil exactly when the request was sent and the device acknowledged it with "success". Any other result is ErrUnknown or an ActionError tagged "disconnect". |
| `Zte8810ft.GetCellConnStatus` | drivers/zte8810ft.go:185-239 | Succeeds exactly when the reply passes every check and carries a known ppp token; it then returns that token's decoding. Otherwise it returns the reply check's failure. |
| `Zte8810ft.SendSMS` | drivers/zte8810ft.go:241-312 | A GSM-7 failure gives ActionError "sms send" and no request at all. Otherwise it sends the send request with the framed body and the sms_time of the send and judges the reply like a command. |
| `Zte8810ft.DecodeRecord` | drivers/zte8810ft.go:359-384 | A record decodes exactly when its date parses, its content hex-decodes and the bytes read as UCS-2. It then becomes (time, number, text). Otherwise the failure is an ActionError tagged "sms read" whose message names the first step that failed: datetime, content parse or content decode. |
| `Zte8810ft.DecodeAllSucceeds` | drivers/zte8810ft.go:359-387 | When every record decodes, the list has one SMS per record, in the device's order. |
| `Zte8810ft.DecodeAllFailsAt` | drivers/zte8810ft.go:363-382 | The first record that does not decode fails the whole list with its error. No partial list is returned. |
| `Zte8810ft.ProcessMessages` | drivers/zte8810ft.go:359-387 | The array-filling loop with early returns computes exactly DecodeAll. |
| `Zte8810ft.ReadAllSMS` | drivers/zte8810ft.go:314-388 | Reply check failures are returned as they are. Transport and status failures are tagged "status", while a refused request and a JSON failure are tagged "sms read" and the JSON error is not wrapped. A body that is the JSON literal null ends in a nil-dereference panic. Otherwise the result is the decoded list. |
| `Zte8810ftLegacy.Zte8810ft.constructor` | drivers/zte8810ft/main.go:51 | Stores the host and the base path. |
| `Zte8810ftLegacy.Zte8810ft.SetHost` | drivers/zte8810ft/main.go:69-72 | Replaces the host, which later requests and Referers use. The error is always nil. |
| `Zte8810ftLegacy.Zte8810ft.GetHost` | drivers/zte8810ft/main.go:74-76 | Returns the stored host. |
| `Zte8810ftLegacy.Zte8810ft.GetModel` | drivers/zte8810ft/main.go:78-80 | Always "ZTE 8810FT". |
| `Zte8810ftLegacy.Zte8810ft.ConnectCell` | drivers/zte8810ft/main.go:82-120 | Nil exactly when the device acknowledges the request for the current host. The answer equals the newer driver's for that host when the request is never refused. |
| `Zte8810ftLegacy.Zte8810ft.DisconnectCell` | drivers/zte8810ft/main.go:122-159 | Nil exactly when the device acknowledges. The answer equals the newer driver's for the same host. |
| `Zte8810ftLegacy.Zte8810ft.GetCellConnStatus` | drivers/zte8810ft/main.go:161-213 | Succeeds exactly on a delivered, known ppp token. The answer equals the newer driver's for the same host. |
| `Zte8810ftLegacy.Zte8810ft.SendSMS` | drivers/zte8810ft/main.go:215-289 | A GSM-7 failure gives ActionError "sms send" and no request. Otherwise the send request carries the two-valued Content-Type, and the result is nil exactly when the device acknowledges. |
| `Zte8810ftLegacy.Package.constructor` | drivers/zte8810ft/main.go:35-39 | Client, config and logger all start unset. |
| `Zte8810ftLegacy.Package.Init` | drivers/zte8810ft/main.go:41-44 | Registers under "ZTE 8810FT" and keeps the configuration and logger the registry hands back. A duplicate changes nothing. |
| `Zte8810ftLegacy.Package.NewZTE8810FT` | drivers/zte8810ft/main.go:46-52 | The first call creates the client with a timeout of cmd_ttl seconds, and later calls keep it. The handle stores the host and the set endpoint. |
| `Zte8810ftLegacy.SharedClient` | drivers/zte8810ft/main.go:47-49 | Two handles are distinct and share the client the first call created. |
| `Zte8810ftLegacy.ImplementsAll` | drivers/zte8810ft/main.go:54-289 | The driver implements the common BaseModem, ModemCell and ModemSMS. |
| `Zte8810ftLegacy.SendDiffersOnlyInContentType` | drivers/zte8810ft/main.go:251-252 | In the parts of a request the model represents, the older SMS send request equals the newer one apart from the Content-Type header, which differs. The two also frame the body's length differently, which the model does not represent. |

## Left out

- **HTTP and the network.** `http.Client.Do`, `io.ReadAll`, closing bodies, `net.InterfaceByName`, `Interface.Addrs` and the dialer built by `GetTransportForIPv4` are parameters. That function's `net.ResolveTCPAddr` failure is the `resolve` field of `Zte8810ft.Network`.
- **`encoding/json`.** The decoding is part of the reply value. A reply without a `result` key decodes to "", as Go's zero value does.
- **`gsm7.Encode`, `ucs2.Decode` and `time.Parse`** are function parameters. Their libraries are not part of this model. The date layout "06,01,02,15,04,05,-07" is therefore not modelled.
- **Time.** `time.Now`, `t.Zone` and `t.Format` become a `LocalTime` parameter (date fields and zone offset) and a millisecond clock value.
- **Form and query encoding.** Parameters are kept as the list of `Add` calls in order. The percent-escaping and key sorting of `url.Values.Encode`, `url.URL.String` and the HTTP/1.1 `Proto` field are not modelled.
- **Logging and configuration.** The `slog` calls, the `logger.With` attributes (the newer ZTE driver keeps the logger it is given) and viper are left out. The logging package's `init`, which reads the configuration and builds handlers, is also left out. Configuration is a string map, and "host" is read at each call.
- **Message text.** `DriverErrors.ErrorText` takes what fmt's `%e` verb makes of an ActionError's cause as a parameter, because that text is the formatting library's bad-verb output.
- **Wire errors of the older ZTE driver.** That driver returns the `common` package's `ActionError`, `UnmarshalError` and `ErrUnknown`. The file declaring them is not part of this model, so they are modelled by the same values as drivers/errors.go.
- **Constructors that allocate.** Constructors stored in a registry are Dafny function values, which cannot allocate objects. `Dummy.Init`, `DummyPkg.Package.Init` and `Zte8810ftLegacy.Package.Init` therefore take the value standing for `newDummy` or `newZTE8810FT` from the caller.
- `Zte8810ftLegacy.Package.NewZTE8810FT`: requires `init` to have run before the first construction, which Go's package initialisation guarantees. A nil configuration would panic.
- `Zte8810ftLegacy.Package.NewZTE8810FT`: does not model the int64 wrap-around of `cmd_ttl * time.Second`. The timeout is an unbounded integer of nanoseconds, with `cmd_ttl` as the Duration viper returns.
- `DriverErrors.Is`: compares errors by value. Go compares the `fmt.Errorf` and `errors.New` values by pointer, so two separately created errors with the same text are different in Go and equal here. `UnmarshalError.RawData` is a pointer to a byte slice, compared in Go by address, and here by the bytes' contents.
- `Zte8810ftLegacy.SendDiffersOnlyInContentType`: compares only method, URL, headers and form. The older driver builds its `http.Request` by hand and sets `Body` afterwards with `ContentLength` left at 0, so its POST goes out chunked without a `Content-Length` header. The newer driver's `http.NewRequest` sets the length. Body framing is not modelled.
- `Helpers.GetInterfaceIPv4Addr`: the address list holds the IPs of `*net.IPNet` addresses only. The type assertion that panics on any other kind of address is not modelled.
- **Map order.** The order of Go's map iteration in `GetAvailableDrivers` is unspecified, and the model picks names in an arbitrary order.
- **drivers/common.go.** Its `LinkStatus` with four booleans and its `SMS` struct are not used by any operation of that file and are not modelled.
- **drivers/dummy.go.** Its `init` logs through an undefined `dLogger`. That call is left out; the registration is modelled.
- **The older ZTE driver's `init`** prints "here". That output is left out.
- **Out of scope.** The CLI (mcli.go, main.go, args.go), config/config.go, the root errors.go message for unsupported drivers and the non-compiling drivers/8810ft.go stub are not part of this model.
- `ErrNoDrivers` is declared but never returned by any core operation. It appears only in `DriverErrors.SentinelsDistinct`.
