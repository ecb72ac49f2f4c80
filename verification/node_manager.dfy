/**
 * The registry of provided data-layer nodes (`datalayerNodes`): four lists
 * keyed by node family, appended to by `track_node` and walked by
 * `release_nodes` at shutdown.
 */
module NodeManager {
  import opened Common
  import opened Defines
  import Values

  /** A provided node: the object-scan node of a device, or a property node. */
  datatype Node =
    | ScanNode(address: string)
    | PropertyNode(address: string, readOnly: bool, value: Values.Value)

  /** The keys of `datalayerNodes`, in insertion order. */
  datatype ListName = ConfigParameterNodes | DeviceNodes | DevicePropertyNodes | ScanNodes

  const ListOrder: seq<ListName> := [ConfigParameterNodes, DeviceNodes, DevicePropertyNodes, ScanNodes]

  /** The exception a `case` raises when it names an enum member that does not exist. */
  datatype AttributeError = AttributeError(member: string)

  /**
   * `get_type_string_from_enum` as written. Python evaluates the value
   * patterns of a `match` in order; the second one, `NodeType.DEVICE_NODE`,
   * names a member `NodeType` does not have, so every type that the first
   * case does not catch raises.
   */
  function GetTypeStringAsWritten(t: NodeType): (r: Result<Option<ListName>, AttributeError>)
    ensures r.Ok? ==> r.value.Some?
  {
    if t == ConfigParameter then Ok(Some(ConfigParameterNodes)) else Err(AttributeError("DEVICE_NODE"))
  }

  /**
   * The mapping the cases evidently intend, over the members `NodeType`
   * actually has: both kinds of scan node share the scan list, and a
   * folder node has no list.
   */
  function GetTypeString(t: NodeType): (r: Option<ListName>)
    ensures r.None? <==> t == FolderNode
  {
    match t
    case ConfigParameter => Some(ConfigParameterNodes)
    case DevicePropertyNode => Some(DevicePropertyNodes)
    case WhoIsScanNode => Some(ScanNodes)
    case DiscoverScanNode => Some(ScanNodes)
    case FolderNode => None
  }

  /** As written, only a configuration parameter can be tracked. */
  lemma AsWrittenRaises(t: NodeType)
    ensures GetTypeStringAsWritten(t).Ok? <==> t == ConfigParameter
    ensures t != ConfigParameter ==> GetTypeStringAsWritten(t) == Err(AttributeError("DEVICE_NODE"))
  {
  }

  /**
   * The three types the providers pass to `track_node` all raise as
   * written; the corrected mapping sends each to a list.
   */
  lemma TrackedTypesRaise()
    ensures GetTypeStringAsWritten(DiscoverScanNode).Err? && GetTypeString(DiscoverScanNode) == Some(ScanNodes)
    ensures GetTypeStringAsWritten(WhoIsScanNode).Err? && GetTypeString(WhoIsScanNode) == Some(ScanNodes)
    ensures GetTypeStringAsWritten(DevicePropertyNode).Err? && GetTypeString(DevicePropertyNode) == Some(DevicePropertyNodes)
  {
  }

  /** The corrected mapping agrees with the written one wherever that one returns. */
  lemma CorrectedAgrees(t: NodeType)
    ensures GetTypeStringAsWritten(t).Ok? ==> GetTypeStringAsWritten(t).value == GetTypeString(t)
    ensures GetTypeString(t) == Some(ConfigParameterNodes) <==> GetTypeStringAsWritten(t).Ok?
  {
  }

  /** The nodes of `s` that `keep` accepts, in order. */
  function Filter(s: seq<Node>, keep: Node -> bool): (r: seq<Node>)
    ensures |r| <= |s|
    ensures forall n :: n in r <==> n in s && keep(n)
  {
    if |s| == 0 then [] else Filter(s[..|s| - 1], keep) + (if keep(s[|s| - 1]) then [s[|s| - 1]] else [])
  }

  lemma {:induction false} FilterAppend(a: seq<Node>, b: seq<Node>, keep: Node -> bool)
    ensures Filter(a + b, keep) == Filter(a, keep) + Filter(b, keep)
  {
    if |b| > 0 {
      var last := b[|b| - 1];
      assert (a + b)[..|a + b| - 1] == a + b[..|b| - 1];
      FilterAppend(a, b[..|b| - 1], keep);
    } else {
      assert a + b == a;
    }
  }

  lemma FilterOne(n: Node, keep: Node -> bool)
    ensures Filter([n], keep) == if keep(n) then [n] else []
  {
    assert [n][..0] == [];
  }

  /** The lists one after the other. */
  function Flatten(lists: seq<seq<Node>>): (r: seq<Node>)
    ensures forall i, n :: 0 <= i < |lists| && n in lists[i] ==> n in r
  {
    if |lists| == 0 then [] else Flatten(lists[..|lists| - 1]) + lists[|lists| - 1]
  }

  lemma FlattenStep(lists: seq<seq<Node>>, i: nat)
    requires i < |lists|
    ensures Flatten(lists[..i + 1]) == Flatten(lists[..i]) + lists[i]
  {
    assert lists[..i + 1][..i] == lists[..i];
  }

  /** `datalayerNodes`: the tracked nodes of each family, oldest first. */
  class Registry {
    var configParameterNodes: seq<Node>
    var deviceNodes: seq<Node>
    var devicePropertyNodes: seq<Node>
    var scanNodes: seq<Node>

    constructor ()
      ensures configParameterNodes == [] && deviceNodes == [] && devicePropertyNodes == [] && scanNodes == []
    {
      configParameterNodes := [];
      deviceNodes := [];
      devicePropertyNodes := [];
      scanNodes := [];
    }

    /** `datalayerNodes[name]`. */
    function List(name: ListName): seq<Node>
      reads this
    {
      match name
      case ConfigParameterNodes => configParameterNodes
      case DeviceNodes => deviceNodes
      case DevicePropertyNodes => devicePropertyNodes
      case ScanNodes => scanNodes
    }

    /** `datalayerNodes.values()`, in key order. */
    function Lists(): (r: seq<seq<Node>>)
      reads this
      ensures |r| == |ListOrder|
      ensures forall i :: 0 <= i < |r| ==> r[i] == List(ListOrder[i])
    {
      [configParameterNodes, deviceNodes, devicePropertyNodes, scanNodes]
    }

    /** Every tracked node, list by list. */
    function Tracked(): (r: seq<Node>)
      reads this
      ensures forall l, n :: n in List(l) ==> n in r
    {
      var lists := Lists();
      assert forall l :: List(l) == lists[if l.ConfigParameterNodes? then 0 else if l.DeviceNodes? then 1
                                          else if l.DevicePropertyNodes? then 2 else 3];
      Flatten(lists)
    }

    /**
     * `track_node(type, node)` with the corrected mapping: the node goes to
     * the end of its family's list and the other lists stay as they were.
     */
    method TrackNode(t: NodeType, node: Node)
      requires GetTypeString(t).Some?
      modifies this
      ensures List(GetTypeString(t).value) == old(List(GetTypeString(t).value)) + [node]
      ensures forall l :: l != GetTypeString(t).value ==> List(l) == old(List(l))
      ensures configParameterNodes == old(configParameterNodes) + if t == ConfigParameter then [node] else []
      ensures deviceNodes == old(deviceNodes)
      ensures devicePropertyNodes == old(devicePropertyNodes) + if t == DevicePropertyNode then [node] else []
      ensures scanNodes == old(scanNodes) + if t == WhoIsScanNode || t == DiscoverScanNode then [node] else []
    {
      var name := GetTypeString(t).value;
      if name == ConfigParameterNodes {
        configParameterNodes := configParameterNodes + [node];
      } else if name == DevicePropertyNodes {
        devicePropertyNodes := devicePropertyNodes + [node];
      } else {
        scanNodes := scanNodes + [node];
      }
    }

    /**
     * `release_nodes`: `unregister_node` is called on every tracked node,
     * list by list, whether or not earlier calls raised (`raises` says which
     * do). `del node` only drops the loop variable, so nothing is removed.
     */
    method ReleaseNodes(raises: Node -> bool) returns (released: seq<Node>, failed: seq<Node>)
      ensures released == Tracked()
      ensures failed == Filter(Tracked(), raises)
    {
      var lists := Lists();
      released, failed := [], [];
      var i := 0;
      while i < |lists|
        invariant 0 <= i <= |lists|
        invariant released == Flatten(lists[..i])
        invariant failed == Filter(released, raises)
      {
        FlattenStep(lists, i);
        released, failed := ReleaseList(lists[i], raises, released, failed);
        i := i + 1;
      }
      assert lists[..i] == lists;
    }
  }

  /**
   * The inner loop of `release_nodes` over one list: every node is
   * released, and the ones whose `unregister_node` raises are noted.
   */
  method ReleaseList(nodes: seq<Node>, raises: Node -> bool, releasedBefore: seq<Node>, failedBefore: seq<Node>)
    returns (released: seq<Node>, failed: seq<Node>)
    requires failedBefore == Filter(releasedBefore, raises)
    ensures released == releasedBefore + nodes
    ensures failed == Filter(released, raises)
  {
    released, failed := releasedBefore, failedBefore;
    var j := 0;
    while j < |nodes|
      invariant 0 <= j <= |nodes|
      invariant released == releasedBefore + nodes[..j]
      invariant failed == Filter(released, raises)
    {
      assert nodes[..j + 1] == nodes[..j] + [nodes[j]];
      AppendAssoc(releasedBefore, nodes[..j], [nodes[j]]);
      FilterAppend(released, [nodes[j]], raises);
      FilterOne(nodes[j], raises);
      released := released + [nodes[j]];
      if raises(nodes[j]) {
        failed := failed + [nodes[j]];
      }
      j := j + 1;
    }
    assert nodes[..j] == nodes;
  }
}
