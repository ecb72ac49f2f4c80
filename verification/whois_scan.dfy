/**
 * The Who-Is scan node's work after a scan: for every device found, a
 * device root path under the provider root, an object-scan node below it,
 * and one read-only property node per field the I-Am record holds.
 */
module WhoisScan {
  import opened Common
  import Text
  import opened Defines
  import opened Values
  import Session
  import opened NodeManager

  /** `device_root_path`: the provider root, `devices/`, then `str(device_instance)`. */
  function DeviceRootPath(deviceInstance: int): string
  {
    RootPath + "devices/" + Text.IntToString(deviceInstance)
  }

  /** `scanAddress`: the object-scan node below a device root. */
  function ScanAddress(root: string): string
  {
    root + "/scanObjects"
  }

  /** The `props` dict built from a device record, in insertion order; a missing MAC is `None`. */
  function Props(d: Session.DeviceRecord): seq<(string, Option<Value>)>
  {
    [("device_instance", Some(Int(d.deviceInstance))),
     ("max_apdu", Some(Int(d.maxApdu))),
     ("segmentation", Some(Value.Text(d.segmentation))),
     ("vendor_id", Some(Int(d.vendorId))),
     ("source_mac", if d.sourceMac.Some? then Some(Int(d.sourceMac.value)) else None)]
  }

  /**
   * The property nodes made for `props`: one read-only node at
   * `<root>/<key>` per entry whose value is not `None`, in order.
   */
  function PropertyNodes(root: string, props: seq<(string, Option<Value>)>): (r: seq<Node>)
    ensures |r| <= |props|
    ensures forall n :: n in r ==> n.PropertyNode? && n.readOnly
    ensures forall i :: 0 <= i < |props| && props[i].1.Some? ==>
              PropertyNode(root + "/" + props[i].0, true, props[i].1.value) in r
  {
    if |props| == 0 then []
    else
      var (key, val) := props[|props| - 1];
      var init := PropertyNodes(root, props[..|props| - 1]);
      init + if val.None? then [] else [PropertyNode(root + "/" + key, true, val.value)]
  }

  lemma PropertyNodesStep(root: string, props: seq<(string, Option<Value>)>, k: nat)
    requires k < |props|
    ensures PropertyNodes(root, props[..k + 1]) ==
            PropertyNodes(root, props[..k]) +
            if props[k].1.None? then [] else [PropertyNode(root + "/" + props[k].0, true, props[k].1.value)]
  {
    assert props[..k + 1][..k] == props[..k];
  }

  /**
   * The nodes of one device, in the order `provide_device_nodes` makes
   * them: instance, max APDU, segmentation, vendor, and the MAC only when
   * it was extracted.
   */
  lemma {:induction false} DeviceProperties(d: Session.DeviceRecord, root: string)
    ensures PropertyNodes(root, Props(d)) ==
            [PropertyNode(root + "/" + "device_instance", true, Int(d.deviceInstance)),
             PropertyNode(root + "/" + "max_apdu", true, Int(d.maxApdu)),
             PropertyNode(root + "/" + "segmentation", true, Value.Text(d.segmentation)),
             PropertyNode(root + "/" + "vendor_id", true, Int(d.vendorId))] +
            if d.sourceMac.Some? then [PropertyNode(root + "/" + "source_mac", true, Int(d.sourceMac.value))] else []
  {
    FixedProperties(d, root);
    PropertyNodesStep(root, Props(d), 4);
    assert Props(d)[..5] == Props(d);
  }

  /** The four fields every device record has give four nodes. */
  lemma {:induction false} FixedProperties(d: Session.DeviceRecord, root: string)
    ensures PropertyNodes(root, Props(d)[..4]) ==
            [PropertyNode(root + "/" + "device_instance", true, Int(d.deviceInstance)),
             PropertyNode(root + "/" + "max_apdu", true, Int(d.maxApdu)),
             PropertyNode(root + "/" + "segmentation", true, Value.Text(d.segmentation)),
             PropertyNode(root + "/" + "vendor_id", true, Int(d.vendorId))]
  {
    var props := Props(d);
    var n0 := PropertyNode(root + "/" + "device_instance", true, Int(d.deviceInstance));
    var n1 := PropertyNode(root + "/" + "max_apdu", true, Int(d.maxApdu));
    var n2 := PropertyNode(root + "/" + "segmentation", true, Value.Text(d.segmentation));
    var n3 := PropertyNode(root + "/" + "vendor_id", true, Int(d.vendorId));
    assert props[..0] == [];
    PropertyNodesStep(root, props, 0);
    PropertyNodesStep(root, props, 1);
    PropertyNodesStep(root, props, 2);
    PropertyNodesStep(root, props, 3);
    assert PropertyNodes(root, props[..2]) == [n0, n1];
    assert PropertyNodes(root, props[..3]) == [n0, n1, n2];
  }

  /**
   * `provide_device_nodes`: registers the scan node and then the property
   * nodes, tracking each one whose registration `registerOk` accepts.
   */
  method ProvideDeviceNodes(reg: Registry, registerOk: Node -> bool, device: Session.DeviceRecord, root: string)
    modifies reg
    ensures reg.scanNodes == old(reg.scanNodes) + Filter([ScanNode(ScanAddress(root))], registerOk)
    ensures reg.devicePropertyNodes == old(reg.devicePropertyNodes) + Filter(PropertyNodes(root, Props(device)), registerOk)
    ensures reg.configParameterNodes == old(reg.configParameterNodes) && reg.deviceNodes == old(reg.deviceNodes)
  {
    ProvideScanNode(reg, registerOk, root);
    ProvidePropertyNodes(reg, registerOk, root, Props(device));
  }

  /** The first step of `provide_device_nodes`: the scan node, tracked when its registration succeeds. */
  method ProvideScanNode(reg: Registry, registerOk: Node -> bool, root: string)
    modifies reg
    ensures reg.scanNodes == old(reg.scanNodes) + Filter([ScanNode(ScanAddress(root))], registerOk)
    ensures reg.devicePropertyNodes == old(reg.devicePropertyNodes)
    ensures reg.configParameterNodes == old(reg.configParameterNodes) && reg.deviceNodes == old(reg.deviceNodes)
  {
    var scanNode := ScanNode(ScanAddress(root));
    FilterOne(scanNode, registerOk);
    if registerOk(scanNode) {
      reg.TrackNode(DiscoverScanNode, scanNode);
    }
  }

  /**
   * The loop of `provide_device_nodes` over `props`: a read-only node per
   * value that is not `None`, tracked when its registration succeeds.
   */
  method ProvidePropertyNodes(reg: Registry, registerOk: Node -> bool, root: string, props: seq<(string, Option<Value>)>)
    modifies reg
    ensures reg.devicePropertyNodes == old(reg.devicePropertyNodes) + Filter(PropertyNodes(root, props), registerOk)
    ensures reg.scanNodes == old(reg.scanNodes)
    ensures reg.configParameterNodes == old(reg.configParameterNodes) && reg.deviceNodes == old(reg.deviceNodes)
  {
    var k := 0;
    assert props[..0] == [];
    while k < |props|
      invariant 0 <= k <= |props|
      invariant reg.devicePropertyNodes == old(reg.devicePropertyNodes) + Filter(PropertyNodes(root, props[..k]), registerOk)
      invariant reg.scanNodes == old(reg.scanNodes)
      invariant reg.configParameterNodes == old(reg.configParameterNodes) && reg.deviceNodes == old(reg.deviceNodes)
    {
      ghost var done := PropertyNodes(root, props[..k]);
      PropertyNodesStep(root, props, k);
      FilterAppend(done, PropertyNodes(root, [props[k]]), registerOk);
      AppendAssoc(old(reg.devicePropertyNodes), Filter(done, registerOk), Filter(PropertyNodes(root, [props[k]]), registerOk));
      ProvideProperty(reg, registerOk, root, props[k].0, props[k].1);
      k := k + 1;
    }
    assert props[..k] == props;
  }

  /** One pass of that loop: the node for `key`, unless its value is `None`. */
  method ProvideProperty(reg: Registry, registerOk: Node -> bool, root: string, key: string, val: Option<Value>)
    modifies reg
    ensures reg.devicePropertyNodes == old(reg.devicePropertyNodes) + Filter(PropertyNodes(root, [(key, val)]), registerOk)
    ensures reg.scanNodes == old(reg.scanNodes)
    ensures reg.configParameterNodes == old(reg.configParameterNodes) && reg.deviceNodes == old(reg.deviceNodes)
  {
    PropertyNodesOne(root, key, val);
    if val.None? {
      return;
    }
    var node := PropertyNode(root + "/" + key, true, val.value);
    FilterOne(node, registerOk);
    if registerOk(node) {
      reg.TrackNode(DevicePropertyNode, node);
    }
  }

  lemma PropertyNodesOne(root: string, key: string, val: Option<Value>)
    ensures PropertyNodes(root, [(key, val)]) == if val.None? then [] else [PropertyNode(root + "/" + key, true, val.value)]
  {
    assert [(key, val)][..0] == [];
  }

  /** The scan node of every device, in the order the devices came. */
  function ScanNodesOf(devices: seq<Session.DeviceRecord>): (r: seq<Node>)
    ensures |r| == |devices|
    ensures forall i :: 0 <= i < |devices| ==> r[i] == ScanNode(ScanAddress(DeviceRootPath(devices[i].deviceInstance)))
  {
    if |devices| == 0 then []
    else
      var last := devices[|devices| - 1];
      ScanNodesOf(devices[..|devices| - 1]) + [ScanNode(ScanAddress(DeviceRootPath(last.deviceInstance)))]
  }

  /** The property nodes of every device, device by device. */
  function PropertyNodesOf(devices: seq<Session.DeviceRecord>): seq<Node>
  {
    if |devices| == 0 then []
    else
      var last := devices[|devices| - 1];
      PropertyNodesOf(devices[..|devices| - 1]) + PropertyNodes(DeviceRootPath(last.deviceInstance), Props(last))
  }

  lemma ScanStep(devices: seq<Session.DeviceRecord>, k: nat)
    requires k < |devices|
    ensures ScanNodesOf(devices[..k + 1]) ==
            ScanNodesOf(devices[..k]) + [ScanNode(ScanAddress(DeviceRootPath(devices[k].deviceInstance)))]
    ensures PropertyNodesOf(devices[..k + 1]) ==
            PropertyNodesOf(devices[..k]) + PropertyNodes(DeviceRootPath(devices[k].deviceInstance), Props(devices[k]))
  {
    assert devices[..k + 1][..k] == devices[..k];
  }

  /** Every property node of a scan is read-only. */
  lemma {:induction false} ScanPropertiesReadOnly(devices: seq<Session.DeviceRecord>)
    ensures forall n :: n in PropertyNodesOf(devices) ==> n.PropertyNode? && n.readOnly
  {
    if |devices| > 0 {
      ScanPropertiesReadOnly(devices[..|devices| - 1]);
    }
  }

  /**
   * The loop of `run_device_scan` over the devices `whois` returned, in
   * their order. Caching each device first is not part of this model.
   */
  method RunDeviceScan(reg: Registry, registerOk: Node -> bool, devices: seq<Session.DeviceRecord>)
    modifies reg
    ensures reg.scanNodes == old(reg.scanNodes) + Filter(ScanNodesOf(devices), registerOk)
    ensures reg.devicePropertyNodes == old(reg.devicePropertyNodes) + Filter(PropertyNodesOf(devices), registerOk)
    ensures reg.configParameterNodes == old(reg.configParameterNodes) && reg.deviceNodes == old(reg.deviceNodes)
  {
    var k := 0;
    assert devices[..0] == [];
    while k < |devices|
      invariant 0 <= k <= |devices|
      invariant reg.scanNodes == old(reg.scanNodes) + Filter(ScanNodesOf(devices[..k]), registerOk)
      invariant reg.devicePropertyNodes == old(reg.devicePropertyNodes) + Filter(PropertyNodesOf(devices[..k]), registerOk)
      invariant reg.configParameterNodes == old(reg.configParameterNodes) && reg.deviceNodes == old(reg.deviceNodes)
    {
      var device := devices[k];
      var root := DeviceRootPath(device.deviceInstance);
      ScanStep(devices, k);
      FilterAppend(ScanNodesOf(devices[..k]), [ScanNode(ScanAddress(root))], registerOk);
      FilterAppend(PropertyNodesOf(devices[..k]), PropertyNodes(root, Props(device)), registerOk);
      AppendAssoc(old(reg.scanNodes), Filter(ScanNodesOf(devices[..k]), registerOk),
                  Filter([ScanNode(ScanAddress(root))], registerOk));
      AppendAssoc(old(reg.devicePropertyNodes), Filter(PropertyNodesOf(devices[..k]), registerOk),
                  Filter(PropertyNodes(root, Props(device)), registerOk));
      ProvideDeviceNodes(reg, registerOk, device, root);
      k := k + 1;
    }
    assert devices[..k] == devices;
  }
}
