/**
 * Shared constants of the provider: the root of its data-layer paths, the
 * kinds of nodes it registers, and the access table of the standard
 * object types (ASHRAE 135 clause 12) with the `is_writable` lookup.
 */
module Defines {
  import opened Common

  const RootPath := "bacnet/"

  /** `NodeType`: the kinds of node the provider registers. */
  datatype NodeType = ConfigParameter | DevicePropertyNode | WhoIsScanNode | DiscoverScanNode | FolderNode

  /** The object types the access table lists. */
  const ObjectTypes: set<string> := {"analogInput", "analogOutput", "analogValue", "binaryInput",
                                     "binaryOutput", "binaryValue", "multistateValue", "accumulator"}

  /**
   * One entry of the table: every property the type lists, mapped to
   * "R/W" when it is writable and to "R" otherwise.
   */
  function Entry(readOnly: set<string>, writable: set<string>): map<string, string>
  {
    map p | p in readOnly + writable :: if p in writable then "R/W" else "R"
  }

  /**
   * The access entries of each object type (clauses 12.11 to 12.18): the
   * properties the table marks "R", then those it marks "R/W".
   */
  const AnalogInput: map<string, string> := Entry(
      {"objectIdentifier", "objectType", "presentValue", "statusFlags", "eventState", "units"},
      {"objectName", "outOfService", "description"})
  const AnalogOutput: map<string, string> := Entry(
      {"objectIdentifier", "objectType", "statusFlags", "eventState", "units", "priorityArray"},
      {"objectName", "presentValue", "outOfService", "relinquishDefault", "description"})
  const AnalogValue: map<string, string> := Entry(
      {"objectIdentifier", "objectType", "statusFlags", "eventState", "units", "priorityArray"},
      {"objectName", "presentValue", "outOfService", "relinquishDefault", "description"})
  const BinaryInput: map<string, string> := Entry(
      {"objectIdentifier", "objectType", "presentValue", "statusFlags", "eventState", "polarity"},
      {"objectName", "outOfService", "inactiveText", "activeText", "description"})
  const BinaryOutput: map<string, string> := Entry(
      {"objectIdentifier", "objectType", "statusFlags", "eventState", "polarity", "priorityArray"},
      {"objectName", "presentValue", "outOfService", "inactiveText", "activeText", "relinquishDefault", "description"})
  const BinaryValue: map<string, string> := Entry(
      {"objectIdentifier", "objectType", "statusFlags", "eventState", "priorityArray"},
      {"objectName", "presentValue", "outOfService", "inactiveText", "activeText", "relinquishDefault", "description"})
  const MultistateValue: map<string, string> := Entry(
      {"objectIdentifier", "objectType", "statusFlags", "eventState", "numberOfStates", "priorityArray"},
      {"objectName", "presentValue", "outOfService", "stateText", "relinquishDefault", "description"})
  const Accumulator: map<string, string> := Entry(
      {"objectIdentifier", "objectType", "presentValue", "scale", "units", "maxPresValue", "statusFlags", "eventState"},
      {"objectName", "prescale", "outOfService", "description"})

  /** The entry of a listed object type. */
  function EntryFor(objectType: string): map<string, string>
  {
    if objectType == "analogInput" then AnalogInput
    else if objectType == "analogOutput" then AnalogOutput
    else if objectType == "analogValue" then AnalogValue
    else if objectType == "binaryInput" then BinaryInput
    else if objectType == "binaryOutput" then BinaryOutput
    else if objectType == "binaryValue" then BinaryValue
    else if objectType == "multistateValue" then MultistateValue
    else if objectType == "accumulator" then Accumulator
    else map[]
  }

  /** `BACNET_OBJECT_PROPERTIES`: access ("R" or "R/W") per object type and property. */
  const ObjectProperties: map<string, map<string, string>> := map t | t in ObjectTypes :: EntryFor(t)

  /** `BACNET_OBJECT_PROPERTIES.get(obj_type, {}).get(prop)`: the entry, or `None`. */
  function Access(objectType: string, property: string): (a: Option<string>)
    ensures a.Some? <==> objectType in ObjectTypes && property in EntryFor(objectType)
  {
    if objectType in ObjectProperties && property in ObjectProperties[objectType]
    then Some(ObjectProperties[objectType][property]) else None
  }

  /** `is_writable(obj_type, prop)`: the table entry is "R/W"; an unknown type or property is not writable. */
  function IsWritable(objectType: string, property: string): (w: bool)
    ensures w ==> objectType in ObjectTypes && property in EntryFor(objectType)
    ensures objectType !in ObjectTypes || property !in EntryFor(objectType) ==> !w
  {
    Access(objectType, property) == Some("R/W")
  }

  /** Commandable and value objects accept writes to presentValue. */
  lemma PresentValueWritable()
    ensures IsWritable("analogOutput", "presentValue") && IsWritable("analogValue", "presentValue")
    ensures IsWritable("binaryOutput", "presentValue") && IsWritable("binaryValue", "presentValue")
    ensures IsWritable("multistateValue", "presentValue")
  {
    WritableIn("analogOutput");
    WritableIn("analogValue");
    WritableIn("binaryOutput");
    WritableIn("binaryValue");
    WritableIn("multistateValue");
  }

  /** Input objects and the accumulator report presentValue read-only. */
  lemma PresentValueReadOnly()
    ensures !IsWritable("analogInput", "presentValue") && !IsWritable("binaryInput", "presentValue")
    ensures !IsWritable("accumulator", "presentValue")
  {
    ReadOnlyIn("analogInput");
    ReadOnlyIn("binaryInput");
    ReadOnlyIn("accumulator");
  }

  /** The presentValue entry of one type that marks it writable. */
  lemma WritableIn(objectType: string)
    requires objectType in {"analogOutput", "analogValue", "binaryOutput", "binaryValue", "multistateValue"}
    ensures IsWritable(objectType, "presentValue")
  {
    assert objectType in ObjectTypes;
    assert "presentValue" in EntryFor(objectType) && EntryFor(objectType)["presentValue"] == "R/W";
  }

  /** The presentValue entry of one type that marks it read-only. */
  lemma ReadOnlyIn(objectType: string)
    requires objectType in {"analogInput", "binaryInput", "accumulator"}
    ensures !IsWritable(objectType, "presentValue")
  {
    assert objectType in ObjectTypes;
    assert "presentValue" in EntryFor(objectType) && EntryFor(objectType)["presentValue"] == "R";
  }

  /**
   * Every entry is "R" or "R/W"; the identifier and the type of an object
   * are read-only, and its name and out-of-service flag writable, for
   * every listed object type.
   */
  lemma TableShape(objectType: string)
    requires objectType in ObjectTypes
    ensures forall p :: p in ObjectProperties[objectType] ==> ObjectProperties[objectType][p] in {"R", "R/W"}
    ensures Access(objectType, "objectIdentifier") == Some("R") && Access(objectType, "objectType") == Some("R")
    ensures IsWritable(objectType, "objectName") && IsWritable(objectType, "outOfService")
  {
    EntryShape(objectType);
  }

  /** The shape every entry of the table has. */
  predicate WellShaped(entry: map<string, string>)
  {
    && (forall p :: p in entry ==> entry[p] in {"R", "R/W"})
    && "objectIdentifier" in entry && entry["objectIdentifier"] == "R"
    && "objectType" in entry && entry["objectType"] == "R"
    && "objectName" in entry && entry["objectName"] == "R/W"
    && "outOfService" in entry && entry["outOfService"] == "R/W"
  }

  lemma EntryShape(objectType: string)
    requires objectType in ObjectTypes
    ensures WellShaped(EntryFor(objectType))
  {
    if objectType == "analogInput" {
      AnalogInputShape();
    } else if objectType == "analogOutput" {
      AnalogOutputShape();
    } else if objectType == "analogValue" {
      AnalogValueShape();
    } else if objectType == "binaryInput" {
      BinaryInputShape();
    } else if objectType == "binaryOutput" {
      BinaryOutputShape();
    } else if objectType == "binaryValue" {
      BinaryValueShape();
    } else if objectType == "multistateValue" {
      MultistateValueShape();
    } else {
      AccumulatorShape();
    }
  }

  lemma AnalogInputShape()
    ensures WellShaped(AnalogInput)
  {
  }

  lemma AnalogOutputShape()
    ensures WellShaped(AnalogOutput)
  {
  }

  lemma AnalogValueShape()
    ensures WellShaped(AnalogValue)
  {
  }

  lemma BinaryInputShape()
    ensures WellShaped(BinaryInput)
  {
  }

  lemma BinaryOutputShape()
    ensures WellShaped(BinaryOutput)
  {
  }

  lemma BinaryValueShape()
    ensures WellShaped(BinaryValue)
  {
  }

  lemma MultistateValueShape()
    ensures WellShaped(MultistateValue)
  {
  }

  lemma AccumulatorShape()
    ensures WellShaped(Accumulator)
  {
  }
}
