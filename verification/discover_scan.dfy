/**
 * The object-scan node's work: recovering the device instance from the
 * node's own address, and providing one node per object the device lists,
 * next to the scan node, writable exactly when the object type's
 * presentValue is.
 */
module DiscoverScan {
  import opened Common
  import Text
  import opened Defines
  import opened Values
  import opened NodeManager
  import opened WhoisScan

  /** What `pop(-2)` and `int(...)` raise. */
  datatype ScanError = IndexError | ValueError(literal: string)

  /** `int(address.split('/').pop(-2))`: the second-to-last segment as an integer. */
  function DeviceIdOf(address: string): (r: Result<int, ScanError>)
    ensures r == Err(IndexError) <==> '/' !in address
    ensures '/' in address ==>
              var parts := Text.Split(address, '/');
              && |parts| >= 2
              && (r.Ok? <==> Text.ParseInt(parts[|parts| - 2]).Some?)
              && (r.Ok? ==> Text.ParseInt(parts[|parts| - 2]) == Some(r.value))
              && (r.Err? ==> r.error == ValueError(parts[|parts| - 2]))
  {
    var parts := Text.Split(address, '/');
    if '/' !in address then Text.SplitWithoutSeparator(address, '/'); Err(IndexError)
    else
      SplitHasTwo(address);
      match Text.ParseInt(parts[|parts| - 2])
      case None => Err(ValueError(parts[|parts| - 2]))
      case Some(n) => Ok(n)
  }

  /** A separator in the string makes at least two segments. */
  lemma SplitHasTwo(s: string)
    requires '/' in s
    ensures |Text.Split(s, '/')| >= 2
  {
    var i :| 0 <= i < |s| && s[i] == '/';
    assert s == s[..i] + ['/'] + s[i + 1..];
    Text.SplitAround(s[..i], s[i + 1..], '/');
  }

  /**
   * Round trip with the Who-Is scan: the scan node built for device `n`
   * gives `n` back.
   */
  lemma ScanAddressRoundTrip(n: int)
    ensures DeviceIdOf(ScanAddress(DeviceRootPath(n))) == Ok(n)
  {
    var digits := Text.IntToString(n);
    assert ScanAddress(DeviceRootPath(n)) == "bacnet/devices" + "/" + digits + "/" + "scanObjects";
    Text.DigitsHaveNoSlash(n);
    assert '/' !in "scanObjects";
    SecondToLast("bacnet/devices", digits, "scanObjects");
    Text.ParseIntOfIntToString(n);
  }

  /** The segment before the last of `prefix/middle/last` is `middle`. */
  lemma SecondToLast(prefix: string, middle: string, last: string)
    requires '/' !in middle && '/' !in last
    ensures '/' in prefix + "/" + middle + "/" + last
    ensures var parts := Text.Split(prefix + "/" + middle + "/" + last, '/');
            |parts| >= 2 && parts[|parts| - 2] == middle
  {
    var address := prefix + "/" + middle + "/" + last;
    assert address[|prefix|] == '/';
    Text.SplitAround(prefix + "/" + middle, last, '/');
    Text.SplitAround(prefix, middle, '/');
    Text.SplitWithoutSeparator(middle, '/');
    Text.SplitWithoutSeparator(last, '/');
    assert Text.Split(address, '/') == Text.Split(prefix, '/') + [middle] + [last];
  }

  /**
   * `object_path` in `provide_object_node`: the address without its last
   * segment, then `/<type>/<instance>`.
   */
  function ObjectPath(address: string, objectType: string, instance: int): string
  {
    var parts := Text.Split(address, '/');
    var kept := parts[..|parts| - 1];
    (if |kept| == 0 then "" else Text.Join(kept, '/')) + "/" + objectType + "/" + Text.IntToString(instance)
  }

  /** The object path replaces the last segment of the scan address. */
  lemma ObjectPathReplacesLast(prefix: string, last: string, objectType: string, instance: int)
    requires '/' !in last
    ensures ObjectPath(prefix + "/" + last, objectType, instance) == prefix + "/" + objectType + "/" + Text.IntToString(instance)
  {
    Text.SplitAround(prefix, last, '/');
    Text.SplitWithoutSeparator(last, '/');
    var parts := Text.Split(prefix + "/" + last, '/');
    assert parts[..|parts| - 1] == Text.Split(prefix, '/');
    Text.JoinSplit(prefix, '/');
  }

  /** The node `provide_object_node` makes for one `object_list` entry. */
  function ObjectNode(address: string, obj: (string, int), defaultFor: string -> Value): (n: Node)
    ensures n.PropertyNode? && n.value == defaultFor(obj.0)
    ensures n.readOnly <==> !(obj.0 in ObjectTypes && Access(obj.0, "presentValue") == Some("R/W"))
  {
    PropertyNode(ObjectPath(address, obj.0, obj.1), !IsWritable(obj.0, "presentValue"), defaultFor(obj.0))
  }

  /**
   * An object of device `n` lands next to its scan node, at
   * `bacnet/devices/<n>/<type>/<instance>`.
   */
  lemma ObjectNodeUnderDevice(n: int, obj: (string, int), defaultFor: string -> Value)
    ensures ObjectNode(ScanAddress(DeviceRootPath(n)), obj, defaultFor).address ==
            DeviceRootPath(n) + "/" + obj.0 + "/" + Text.IntToString(obj.1)
  {
    assert ScanAddress(DeviceRootPath(n)) == DeviceRootPath(n) + "/" + "scanObjects";
    assert '/' !in "scanObjects";
    ObjectPathReplacesLast(DeviceRootPath(n), "scanObjects", obj.0, obj.1);
  }

  /** Commandable and value objects get writable nodes; inputs and accumulators read-only ones. */
  lemma ObjectNodeAccess(address: string, instance: int, defaultFor: string -> Value)
    ensures !ObjectNode(address, ("analogOutput", instance), defaultFor).readOnly
    ensures !ObjectNode(address, ("binaryValue", instance), defaultFor).readOnly
    ensures ObjectNode(address, ("analogInput", instance), defaultFor).readOnly
    ensures ObjectNode(address, ("accumulator", instance), defaultFor).readOnly
  {
    PresentValueWritable();
    PresentValueReadOnly();
  }

  /** The nodes for an object list, one per entry, in list order. */
  function ObjectNodes(address: string, objects: seq<(string, int)>, defaultFor: string -> Value): (r: seq<Node>)
    ensures |r| == |objects|
    ensures forall i :: 0 <= i < |objects| ==> r[i] == ObjectNode(address, objects[i], defaultFor)
  {
    if |objects| == 0 then []
    else ObjectNodes(address, objects[..|objects| - 1], defaultFor) + [ObjectNode(address, objects[|objects| - 1], defaultFor)]
  }

  /**
   * `provide_object_node`: registers the node for one object and tracks it
   * when `registerOk` accepts the registration.
   */
  method ProvideObjectNode(reg: Registry, registerOk: Node -> bool, address: string, obj: (string, int),
                           defaultFor: string -> Value)
    modifies reg
    ensures reg.devicePropertyNodes == old(reg.devicePropertyNodes) + Filter([ObjectNode(address, obj, defaultFor)], registerOk)
    ensures reg.scanNodes == old(reg.scanNodes)
    ensures reg.configParameterNodes == old(reg.configParameterNodes) && reg.deviceNodes == old(reg.deviceNodes)
  {
    var readOnly := !IsWritable(obj.0, "presentValue");
    var node := PropertyNode(ObjectPath(address, obj.0, obj.1), readOnly, defaultFor(obj.0));
    FilterOne(node, registerOk);
    if registerOk(node) {
      reg.TrackNode(DevicePropertyNode, node);
    }
  }

  /**
   * `run_property_scan`: the device instance is parsed from the node's own
   * address (a malformed address raises before anything is provided), then
   * one node is provided per entry of `objects`, the object list the
   * object discovery returned for that device.
   */
  method RunPropertyScan(reg: Registry, registerOk: Node -> bool, address: string, objects: seq<(string, int)>,
                         defaultFor: string -> Value) returns (deviceId: Result<int, ScanError>)
    modifies reg
    ensures deviceId == DeviceIdOf(address)
    ensures deviceId.Err? ==> reg.devicePropertyNodes == old(reg.devicePropertyNodes)
    ensures deviceId.Ok? ==>
              reg.devicePropertyNodes == old(reg.devicePropertyNodes) + Filter(ObjectNodes(address, objects, defaultFor), registerOk)
    ensures reg.scanNodes == old(reg.scanNodes)
    ensures reg.configParameterNodes == old(reg.configParameterNodes) && reg.deviceNodes == old(reg.deviceNodes)
  {
    deviceId := DeviceIdOf(address);
    if deviceId.Err? {
      return;
    }
    ProvideObjectNodes(reg, registerOk, address, objects, defaultFor);
  }

  /** The loop of `run_property_scan`: one `provide_object_node` per entry, in list order. */
  method ProvideObjectNodes(reg: Registry, registerOk: Node -> bool, address: string, objects: seq<(string, int)>,
                            defaultFor: string -> Value)
    modifies reg
    ensures reg.devicePropertyNodes == old(reg.devicePropertyNodes) + Filter(ObjectNodes(address, objects, defaultFor), registerOk)
    ensures reg.scanNodes == old(reg.scanNodes)
    ensures reg.configParameterNodes == old(reg.configParameterNodes) && reg.deviceNodes == old(reg.deviceNodes)
  {
    var k := 0;
    assert objects[..0] == [];
    while k < |objects|
      invariant 0 <= k <= |objects|
      invariant reg.devicePropertyNodes == old(reg.devicePropertyNodes) + Filter(ObjectNodes(address, objects[..k], defaultFor), registerOk)
      invariant reg.scanNodes == old(reg.scanNodes)
      invariant reg.configParameterNodes == old(reg.configParameterNodes) && reg.deviceNodes == old(reg.deviceNodes)
    {
      ghost var done := ObjectNodes(address, objects[..k], defaultFor);
      ghost var node := ObjectNode(address, objects[k], defaultFor);
      assert objects[..k + 1][..k] == objects[..k];
      assert ObjectNodes(address, objects[..k + 1], defaultFor) == done + [node];
      FilterAppend(done, [node], registerOk);
      AppendAssoc(old(reg.devicePropertyNodes), Filter(done, registerOk), Filter([node], registerOk));
      ProvideObjectNode(reg, registerOk, address, objects[k], defaultFor);
      k := k + 1;
    }
    assert objects[..k] == objects;
  }
}
