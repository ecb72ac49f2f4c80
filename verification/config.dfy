/**
 * Start-up configuration: how `load_bc_ini` turns a parsed INI file into
 * the MS/TP transport settings and the local device identity. Reading and
 * parsing the file belong to configparser and stay outside the model; the
 * model starts from the parsed sections.
 */
module Config {
  import opened Common
  import Text

  type Options = map<string, string>

  /**
   * A parsed INI file: the options of its [DEFAULT] section and its named
   * sections. configparser stores every option name through `str.lower`.
   */
  datatype Ini = Ini(defaults: Options, sections: map<string, Options>)

  /** `cp[name]`: a section's own options, backed by the [DEFAULT] options. */
  datatype SectionProxy = SectionProxy(own: Options, defaults: Options)

  datatype MstpSettings = MstpSettings(
    address: int, iface: string, baudrate: int, maxMasters: int, maxInfoFrames: int, mstpDir: string)

  datatype DeviceSettings = DeviceSettings(
    objectName: string, objectIdentifier: int, maxApduLengthAccepted: int,
    segmentationSupported: string, vendorIdentifier: int)

  datatype ConfigError =
    | FileNotReadable(path: string)     // FileNotFoundError
    | NoMstpSection                     // KeyError
    | MissingAddressOrInterface         // KeyError
    | NotAnInteger(text: string)        // ValueError raised by int()

  const MstpSectionNames := ["mstp", "MSTP", "BACpypes"]
  const DeviceSectionNames := ["device", "Device", "BACpypes"]

  const AddressKeys := ["_address", "address", "mstp_address"]
  const InterfaceKeys := ["_interface", "interface", "port", "serial_port"]
  const BaudrateKeys := ["_baudrate", "baudrate", "baud"]
  const MaxMastersKeys := ["_max_masters", "max_masters", "maxmasters"]
  const MaxInfoKeys := ["_maxinfo", "max_info_frames", "maxinfo", "maxinfoframes"]
  const MstpDirKeys := ["_mstp_dir", "mstp_dir", "mstp_directory"]
  const ObjectNameKeys := ["objectName", "object_name"]
  const ObjectIdentifierKeys := ["objectIdentifier", "device_id"]
  const MaxApduKeys := ["maxApduLengthAccepted", "max_apdu"]
  const SegmentationKeys := ["segmentationSupported", "segmentation"]
  const VendorKeys := ["vendorIdentifier", "vendor_id"]

  function Message(e: ConfigError): string
  {
    match e
    case FileNotReadable(path) => "Could not read ini file: " + path
    case NoMstpSection => "No [mstp]/[MSTP]/[BACpypes] section found for MS/TP settings in bc.ini"
    case MissingAddressOrInterface => "Missing 'address' or 'interface' in your [BACpypes]/[mstp] section."
    case NotAnInteger(text) => "invalid literal for int() with base 10: '" + text + "'"
  }

  function LowerChar(c: char): char
  {
    if 'A' <= c <= 'Z' then ((c as int) + 32) as char else c
  }

  /** configparser's `optionxform` (`str.lower`) on the ASCII option names used here. */
  function OptionKey(key: string): string
  {
    seq(|key|, i requires 0 <= i < |key| => LowerChar(key[i]))
  }

  /** `section.get(key)` on a section proxy that may be missing (`None`). */
  function Lookup(section: Option<SectionProxy>, key: string): Option<string>
  {
    match section
    case None => None
    case Some(p) =>
      var k := OptionKey(key);
      if k in p.own then Some(p.own[k])
      else if k in p.defaults then Some(p.defaults[k])
      else None
  }

  /** No alias before position `i` has a value. */
  predicate AbsentBefore(section: Option<SectionProxy>, keys: seq<string>, i: int)
    requires 0 <= i <= |keys|
  {
    forall j :: 0 <= j < i ==> Lookup(section, keys[j]).None?
  }

  /**
   * The inner `sec(*names)` helper of `load_bc_ini`: the first of the names
   * that is a section of the file.
   */
  function FirstSection(ini: Ini, names: seq<string>): (r: Option<SectionProxy>)
    ensures r.None? <==> forall i :: 0 <= i < |names| ==> names[i] !in ini.sections
    ensures r.Some? ==> exists i :: 0 <= i < |names| && names[i] in ini.sections
                                   && r.value == SectionProxy(ini.sections[names[i]], ini.defaults)
                                   && forall j :: 0 <= j < i ==> names[j] !in ini.sections
  {
    if |names| == 0 then None
    else if names[0] in ini.sections then Some(SectionProxy(ini.sections[names[0]], ini.defaults))
    else
      var r := FirstSection(ini, names[1..]);
      assert forall i :: 1 <= i < |names| ==> names[i] == names[1..][i - 1];
      r
  }

  /**
   * `opt(section, *keys)` (and the module-level `_get_first`): the value of
   * the first alias that has one, or `None` when none does.
   */
  function Opt(section: Option<SectionProxy>, keys: seq<string>): (r: Option<string>)
    ensures r.None? <==> AbsentBefore(section, keys, |keys|)
    ensures r.Some? ==> exists i :: 0 <= i < |keys| && Lookup(section, keys[i]) == r
                                   && AbsentBefore(section, keys, i)
  {
    if |keys| == 0 then None
    else if Lookup(section, keys[0]).Some? then Lookup(section, keys[0])
    else
      var r := Opt(section, keys[1..]);
      assert forall i :: 1 <= i < |keys| ==> keys[i] == keys[1..][i - 1];
      r
  }

  /** `opt(..., cast=int)` without a default: `int` of the value found, if any. */
  function OptInt(section: Option<SectionProxy>, keys: seq<string>): (r: Result<Option<int>, ConfigError>)
    ensures r.Err? ==> r.error.NotAnInteger?
    ensures r.Ok? ==> (r.value.Some? <==> Opt(section, keys).Some?)
    ensures r.Ok? && r.value.Some? ==> Text.ParseInt(Opt(section, keys).value) == Some(r.value.value)
  {
    match Opt(section, keys)
    case None => Ok(None)
    case Some(v) =>
      match Text.ParseInt(v)
      case None => Err(NotAnInteger(v))
      case Some(n) => Ok(Some(n))
  }

  /** `opt(..., cast=int, default=d)`. */
  function OptIntOr(section: Option<SectionProxy>, keys: seq<string>, default: int): (r: Result<int, ConfigError>)
    ensures r.Err? ==> r.error.NotAnInteger?
    ensures Opt(section, keys).None? ==> r == Ok(default)
    ensures Opt(section, keys).Some? ==>
              && (r.Ok? <==> Text.ParseInt(Opt(section, keys).value).Some?)
              && (r.Ok? ==> Text.ParseInt(Opt(section, keys).value) == Some(r.value))
  {
    match OptInt(section, keys)
    case Err(e) => Err(e)
    case Ok(None) => Ok(default)
    case Ok(Some(n)) => Ok(n)
  }

  /** `opt(..., default=d)` for a string option. */
  function OptOr(section: Option<SectionProxy>, keys: seq<string>, default: string): string
  {
    match Opt(section, keys)
    case None => default
    case Some(v) => v
  }

  /**
   * The MS/TP transport part of `load_bc_ini`, from the section chosen for
   * it; options are resolved in the source's order, so the first `int` that
   * fails decides the error, and it comes before the check for a missing
   * address or interface.
   */
  function MstpOptions(s: Option<SectionProxy>): (r: Result<MstpSettings, ConfigError>)
    ensures r.Ok? ==> Opt(s, AddressKeys).Some? && Opt(s, InterfaceKeys).Some?
    ensures r == Err(MissingAddressOrInterface) ==> Opt(s, AddressKeys).None? || Opt(s, InterfaceKeys).None?
    ensures r.Err? ==> r.error.NotAnInteger? || r.error.MissingAddressOrInterface?
    ensures r.Ok? <==> && OptInt(s, AddressKeys).Ok? && OptIntOr(s, BaudrateKeys, 38400).Ok?
                       && OptIntOr(s, MaxMastersKeys, 127).Ok? && OptIntOr(s, MaxInfoKeys, 1).Ok?
                       && Opt(s, AddressKeys).Some? && Opt(s, InterfaceKeys).Some?
    ensures r.Ok? ==> && Text.ParseInt(Opt(s, AddressKeys).value) == Some(r.value.address)
                      && Opt(s, InterfaceKeys) == Some(r.value.iface)
                      && OptIntOr(s, BaudrateKeys, 38400) == Ok(r.value.baudrate)
                      && OptIntOr(s, MaxMastersKeys, 127) == Ok(r.value.maxMasters)
                      && OptIntOr(s, MaxInfoKeys, 1) == Ok(r.value.maxInfoFrames)
                      && OptOr(s, MstpDirKeys, "/tmp") == r.value.mstpDir
  {
    var address :- OptInt(s, AddressKeys);
    var iface := Opt(s, InterfaceKeys);
    var baudrate :- OptIntOr(s, BaudrateKeys, 38400);
    var maxMasters :- OptIntOr(s, MaxMastersKeys, 127);
    var maxInfo :- OptIntOr(s, MaxInfoKeys, 1);
    var mstpDir := OptOr(s, MstpDirKeys, "/tmp");
    if address.None? || iface.None? then Err(MissingAddressOrInterface)
    else Ok(MstpSettings(address.value, iface.value, baudrate, maxMasters, maxInfo, mstpDir))
  }

  /** The local device identity part of `load_bc_ini`; only an `int` can fail here. */
  function DeviceOptions(d: Option<SectionProxy>): (r: Result<DeviceSettings, ConfigError>)
    ensures r.Err? ==> r.error.NotAnInteger?
    ensures r.Ok? <==> && OptIntOr(d, ObjectIdentifierKeys, 599).Ok? && OptIntOr(d, MaxApduKeys, 1024).Ok?
                       && OptIntOr(d, VendorKeys, 15).Ok?
    ensures r.Ok? ==> && OptOr(d, ObjectNameKeys, "MSTP-Client") == r.value.objectName
                      && OptIntOr(d, ObjectIdentifierKeys, 599) == Ok(r.value.objectIdentifier)
                      && OptIntOr(d, MaxApduKeys, 1024) == Ok(r.value.maxApduLengthAccepted)
                      && OptOr(d, SegmentationKeys, "noSegmentation") == r.value.segmentationSupported
                      && OptIntOr(d, VendorKeys, 15) == Ok(r.value.vendorIdentifier)
  {
    var objectName := OptOr(d, ObjectNameKeys, "MSTP-Client");
    var objectIdentifier :- OptIntOr(d, ObjectIdentifierKeys, 599);
    var maxApdu :- OptIntOr(d, MaxApduKeys, 1024);
    var segmentation := OptOr(d, SegmentationKeys, "noSegmentation");
    var vendor :- OptIntOr(d, VendorKeys, 15);
    Ok(DeviceSettings(objectName, objectIdentifier, maxApdu, segmentation, vendor))
  }

  /**
   * `load_bc_ini`: `file` is the parsed INI file, or `None` when configparser
   * could not read it.
   */
  function LoadBcIni(path: string, file: Option<Ini>): (r: Result<(MstpSettings, DeviceSettings), ConfigError>)
    ensures r == Err(FileNotReadable(path)) <==> file.None?
    ensures r == Err(NoMstpSection) <==>
              file.Some? && forall i :: 0 <= i < |MstpSectionNames| ==> MstpSectionNames[i] !in file.value.sections
    ensures r.Ok? ==> file.Some? && Opt(FirstSection(file.value, MstpSectionNames), AddressKeys).Some?
                                 && Opt(FirstSection(file.value, MstpSectionNames), InterfaceKeys).Some?
    ensures r == Err(MissingAddressOrInterface) ==>
              file.Some? && (Opt(FirstSection(file.value, MstpSectionNames), AddressKeys).None?
                             || Opt(FirstSection(file.value, MstpSectionNames), InterfaceKeys).None?)
    ensures file.Some? && FirstSection(file.value, MstpSectionNames).Some? ==>
              var m := MstpOptions(FirstSection(file.value, MstpSectionNames));
              var d := DeviceOptions(FirstSection(file.value, DeviceSectionNames));
              (r.Ok? <==> m.Ok? && d.Ok?) && (r.Ok? ==> r.value == (m.value, d.value))
  {
    if file.None? then Err(FileNotReadable(path))
    else
      var mstpSection := FirstSection(file.value, MstpSectionNames);
      if mstpSection.None? then Err(NoMstpSection)
      else
        var mstp :- MstpOptions(mstpSection);
        var device :- DeviceOptions(FirstSection(file.value, DeviceSectionNames));
        Ok((mstp, device))
  }

  /** None of the aliases of an option has a value in the section. */
  predicate Unset(section: Option<SectionProxy>, keys: seq<string>)
  {
    forall i :: 0 <= i < |keys| ==> Lookup(section, keys[i]).None?
  }

  /** A transport section that sets only the address and the interface gets the documented defaults. */
  lemma MstpDefaults(s: Option<SectionProxy>, address: string, n: int, iface: string)
    requires Opt(s, AddressKeys) == Some(address) && Text.ParseInt(address) == Some(n)
    requires Opt(s, InterfaceKeys) == Some(iface)
    requires Unset(s, BaudrateKeys) && Unset(s, MaxMastersKeys) && Unset(s, MaxInfoKeys) && Unset(s, MstpDirKeys)
    ensures MstpOptions(s) == Ok(MstpSettings(n, iface, 38400, 127, 1, "/tmp"))
  {
    assert Opt(s, BaudrateKeys).None? && Opt(s, MaxMastersKeys).None?;
    assert Opt(s, MaxInfoKeys).None? && Opt(s, MstpDirKeys).None?;
  }

  /** A device section that sets nothing (or no device section) gives the documented identity. */
  lemma DeviceDefaults(d: Option<SectionProxy>)
    requires Unset(d, ObjectNameKeys) && Unset(d, ObjectIdentifierKeys) && Unset(d, MaxApduKeys)
    requires Unset(d, SegmentationKeys) && Unset(d, VendorKeys)
    ensures DeviceOptions(d) == Ok(DeviceSettings("MSTP-Client", 599, 1024, "noSegmentation", 15))
  {
    assert Opt(d, ObjectNameKeys).None? && Opt(d, ObjectIdentifierKeys).None? && Opt(d, MaxApduKeys).None?;
    assert Opt(d, SegmentationKeys).None? && Opt(d, VendorKeys).None?;
  }

  /**
   * A file that sets only the address and the interface gets every other
   * setting from its documented default.
   */
  lemma LoadDefaults(path: string, ini: Ini, address: string, n: int, iface: string)
    requires FirstSection(ini, MstpSectionNames).Some?
    requires Opt(FirstSection(ini, MstpSectionNames), AddressKeys) == Some(address)
    requires Text.ParseInt(address) == Some(n)
    requires Opt(FirstSection(ini, MstpSectionNames), InterfaceKeys) == Some(iface)
    requires var s := FirstSection(ini, MstpSectionNames);
             Unset(s, BaudrateKeys) && Unset(s, MaxMastersKeys) && Unset(s, MaxInfoKeys) && Unset(s, MstpDirKeys)
    requires var d := FirstSection(ini, DeviceSectionNames);
             Unset(d, ObjectNameKeys) && Unset(d, ObjectIdentifierKeys) && Unset(d, MaxApduKeys)
             && Unset(d, SegmentationKeys) && Unset(d, VendorKeys)
    ensures LoadBcIni(path, Some(ini)) ==
              Ok((MstpSettings(n, iface, 38400, 127, 1, "/tmp"),
                  DeviceSettings("MSTP-Client", 599, 1024, "noSegmentation", 15)))
  {
    MstpDefaults(FirstSection(ini, MstpSectionNames), address, n, iface);
    DeviceDefaults(FirstSection(ini, DeviceSectionNames));
  }

  /** The first alias that has a value wins over every later one. */
  lemma {:induction false} FirstAliasWins(section: Option<SectionProxy>, keys: seq<string>, i: nat)
    requires i < |keys| && Lookup(section, keys[i]).Some? && AbsentBefore(section, keys, i)
    ensures Opt(section, keys) == Lookup(section, keys[i])
  {
    if i > 0 {
      assert Lookup(section, keys[0]).None?;
      assert keys[1..][i - 1] == keys[i];
      FirstAliasWins(section, keys[1..], i - 1);
    }
  }
}
