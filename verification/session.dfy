/**
 * The application object and the session manager: `_MSTPApp`, which
 * captures I-Am messages into a queue, and `_Core`, which starts the stack
 * once from the INI file and hands out the application.
 */
module Session {
  import opened Common
  import opened Config
  import opened Bacnet
  import Mac

  /** The record `indication` puts on the I-Am queue. */
  datatype DeviceRecord = DeviceRecord(
    deviceInstance: int, maxApdu: int, segmentation: string, vendorId: int, sourceMac: Option<int>)

  /**
   * An unconfirmed APDU delivered to the application. For an I-Am, the
   * attributes the record is built from; `None` stands for an attribute
   * left unset (`None` in bacpypes).
   */
  datatype Unconfirmed =
    | IAm(deviceIdentifier: Option<(string, int)>, maxApdu: Option<int>, segmentation: Option<string>,
          vendorId: Option<int>, source: Option<Mac.Source>)
    | OtherUnconfirmed(service: string)

  /** What `indication` makes of an I-Am. */
  datatype Capture = NotDevice | Malformed | Captured(record: DeviceRecord)

  /** Python's `str` of an optional attribute. */
  function StrOf(s: Option<string>): string
  {
    match s
    case None => "None"
    case Some(t) => t
  }

  /**
   * The `try` block of `indication`: unpacking a missing identifier or
   * `int(None)` raises (the record is dropped), a non-device identifier
   * ends it early, anything else builds the five-field record.
   */
  function CaptureOf(apdu: Unconfirmed): (c: Capture)
    requires apdu.IAm?
    ensures c.NotDevice? <==> apdu.deviceIdentifier.Some? && apdu.deviceIdentifier.value.0 != "device"
    ensures c.Captured? <==> apdu.deviceIdentifier.Some? && apdu.deviceIdentifier.value.0 == "device"
                             && apdu.maxApdu.Some? && apdu.vendorId.Some?
    ensures c.Captured? ==> c.record == DeviceRecord(apdu.deviceIdentifier.value.1, apdu.maxApdu.value,
                                                     StrOf(apdu.segmentation), apdu.vendorId.value,
                                                     Mac.ExtractMac(apdu.source))
  {
    match apdu.deviceIdentifier
    case None => Malformed
    case Some((devType, devInst)) =>
      if devType != "device" then NotDevice
      else if apdu.maxApdu.None? || apdu.vendorId.None? then Malformed
      else Captured(DeviceRecord(devInst, apdu.maxApdu.value, StrOf(apdu.segmentation),
                                 apdu.vendorId.value, Mac.ExtractMac(apdu.source)))
  }

  /** An I-Am without segmentation is still captured, with `str(None)` as its segmentation. */
  lemma UnsetSegmentation(instance: int, maxApdu: int, vendorId: int, source: Option<Mac.Source>)
    ensures CaptureOf(IAm(Some(("device", instance)), Some(maxApdu), None, Some(vendorId), source)).record.segmentation == "None"
  {
  }

  /** The I-Am record an APDU adds to the queue: none, or exactly one. */
  function Queued(apdu: Unconfirmed): (q: seq<DeviceRecord>)
    ensures |q| <= 1
    ensures |q| == 1 <==> apdu.IAm? && CaptureOf(apdu).Captured?
  {
    if apdu.IAm? && CaptureOf(apdu).Captured? then [CaptureOf(apdu).record] else []
  }

  /** Whether `indication` hands the APDU on to the superclass. */
  predicate Forwards(apdu: Unconfirmed)
  {
    !(apdu.IAm? && CaptureOf(apdu).NotDevice?)
  }

  /** `_MSTPApp`: the local device, the I-Am queue, and what it passed on or sent. */
  class MstpApp {
    const mstp: MstpSettings
    const device: DeviceSettings
    var iamQueue: seq<DeviceRecord>
    /** APDUs handed to `MSTPSimpleApplication.indication`. */
    var forwarded: seq<Unconfirmed>
    /** Requests handed to the stack, oldest first. */
    var sent: seq<Outgoing>

    constructor (mstp: MstpSettings, device: DeviceSettings)
      ensures this.mstp == mstp && this.device == device
      ensures iamQueue == [] && forwarded == [] && sent == []
    {
      this.mstp := mstp;
      this.device := device;
      iamQueue := [];
      forwarded := [];
      sent := [];
    }

    /** `_MSTPApp.indication`. */
    method Indication(apdu: Unconfirmed)
      modifies this
      ensures iamQueue == old(iamQueue) + Queued(apdu)
      ensures forwarded == old(forwarded) + (if Forwards(apdu) then [apdu] else [])
      ensures sent == old(sent)
    {
      if apdu.IAm? {
        match CaptureOf(apdu)
        case NotDevice =>
          return;
        case Malformed =>
        case Captured(record) =>
          iamQueue := iamQueue + [record];
      }
      forwarded := forwarded + [apdu];
    }

    /** `app.request(req)` / `app.request_io(iocb)`: the request leaves through the stack. */
    method Request(req: Outgoing)
      modifies this
      ensures sent == old(sent) + [req]
      ensures iamQueue == old(iamQueue) && forwarded == old(forwarded)
    {
      sent := sent + [req];
    }

    /** `_iam_queue.get`: the oldest record. */
    method Get() returns (d: DeviceRecord)
      requires |iamQueue| > 0
      modifies this
      ensures d == old(iamQueue)[0] && iamQueue == old(iamQueue)[1..]
      ensures forwarded == old(forwarded) && sent == old(sent)
    {
      d := iamQueue[0];
      iamQueue := iamQueue[1..];
    }

    /** The drain loop of `whois`: `get_nowait` until the queue is empty. */
    method Drain()
      modifies this
      ensures iamQueue == []
      ensures forwarded == old(forwarded) && sent == old(sent)
    {
      while |iamQueue| > 0
        invariant forwarded == old(forwarded) && sent == old(sent)
        decreases |iamQueue|
      {
        var _ := Get();
      }
    }
  }

  /** Why `ensure_started` raised: loading `bc.ini`, or building the stack from the settings. */
  datatype StartError = BadConfig(error: ConfigError) | StackRefused(message: string)

  /**
   * The work of a first `ensure_started`: `load_bc_ini`, then
   * `LocalDeviceObject(**dev, **mstp)` and `_MSTPApp(ldo, Address(...))`.
   * `refuses` gives the exception those bacpypes constructors raise for
   * the loaded settings, if any (an MS/TP address out of range, say).
   */
  function StartUp(path: string, file: Option<Ini>, refuses: ((MstpSettings, DeviceSettings)) -> Option<string>)
    : (r: Result<(MstpSettings, DeviceSettings), StartError>)
    ensures LoadBcIni(path, file).Err? ==> r == Err(BadConfig(LoadBcIni(path, file).error))
    ensures LoadBcIni(path, file).Ok? ==>
              if refuses(LoadBcIni(path, file).value).Some?
              then r == Err(StackRefused(refuses(LoadBcIni(path, file).value).value))
              else r == Ok(LoadBcIni(path, file).value)
  {
    match LoadBcIni(path, file)
    case Err(e) => Err(BadConfig(e))
    case Ok(settings) =>
      match refuses(settings)
      case Some(message) => Err(StackRefused(message))
      case None => Ok(settings)
  }

  const NotStartedMessage := "BACpypes core not started; call ensure_started() first"

  /** `_Core`: started at most once; the application exists exactly when started. */
  class Core {
    /** How the bacpypes constructors react to the settings; fixed for the process. */
    const refuses: ((MstpSettings, DeviceSettings)) -> Option<string>
    var started: bool
    var app: MstpApp?

    ghost predicate Valid()
      reads this
    {
      started <==> app != null
    }

    constructor (refuses: ((MstpSettings, DeviceSettings)) -> Option<string>)
      ensures Valid() && !started && this.refuses == refuses
    {
      this.refuses := refuses;
      started := false;
      app := null;
    }

    /**
     * `_Core.ensure_started(ini_path)`; `file` is the INI file as read from
     * `path`. A configuration error or a constructor's exception is
     * returned (it propagates in Python) and leaves the core as it was.
     */
    method EnsureStarted(path: string, file: Option<Ini>) returns (err: Option<StartError>)
      requires Valid()
      modifies this
      ensures Valid()
      ensures old(started) ==> err.None? && started && app == old(app)
      ensures !old(started) && StartUp(path, file, refuses).Err? ==>
                err == Some(StartUp(path, file, refuses).error) && !started && app == old(app)
      ensures !old(started) && StartUp(path, file, refuses).Ok? ==>
                err.None? && started && fresh(app)
                && app.mstp == StartUp(path, file, refuses).value.0 && app.device == StartUp(path, file, refuses).value.1
                && app.iamQueue == [] && app.forwarded == [] && app.sent == []
    {
      if started {
        return None;
      }
      var loaded := StartUp(path, file, refuses);
      if loaded.Err? {
        return Some(loaded.error);
      }
      Launch(loaded.value);
      return None;
    }

    /** The end of `ensure_started`: the application built from the settings, and `_started` set. */
    method Launch(settings: (MstpSettings, DeviceSettings))
      modifies this
      ensures Valid() && started && fresh(app)
      ensures app.mstp == settings.0 && app.device == settings.1
      ensures app.iamQueue == [] && app.forwarded == [] && app.sent == []
    {
      app := new MstpApp(settings.0, settings.1);
      started := true;
    }

    /** `_Core.app()`: raises until the core has been started. */
    method App() returns (r: Result<MstpApp, string>)
      ensures r.Err? <==> app == null
      ensures r.Err? ==> r.error == NotStartedMessage
      ensures r.Ok? ==> r.value == app
    {
      if app == null {
        return Err(NotStartedMessage);
      }
      return Ok(app);
    }
  }

  /**
   * `_Core.ensure_started(ini_path)` followed by `app = _Core.app()`, the
   * start of every public operation: a start-up error is passed on;
   * otherwise the application is the one already running, or a fresh one
   * that has sent nothing yet.
   */
  method StartedApp(core: Core, path: string, file: Option<Ini>) returns (r: Result<MstpApp, StartError>)
    requires core.Valid()
    modifies core
    ensures core.Valid()
    ensures r.Err? <==> !old(core.started) && StartUp(path, file, core.refuses).Err?
    ensures r.Err? ==> r.error == StartUp(path, file, core.refuses).error && !core.started && core.app == old(core.app)
    ensures r.Ok? ==> core.started && r.value == core.app
    ensures r.Ok? && old(core.started) ==> core.app == old(core.app)
    ensures r.Ok? && !old(core.started) ==>
              fresh(core.app) && core.app.sent == [] && core.app.forwarded == [] && core.app.iamQueue == []
  {
    var err := core.EnsureStarted(path, file);
    if err.Some? {
      return Err(err.value);
    }
    var got := core.App();
    return Ok(got.value);
  }
}
