# BACnet MS/TP client session layer of the ctrlX BACnet provider, in Dafny

This project models the client side of a ctrlX Data Layer provider. The provider talks to BACnet devices (ASHRAE 135) on an MS/TP bus (clause 9), through the bacpypes stack. It covers the following, with a proof of what each part promises:

- **Configuration.** `bc.ini` is resolved through section and option aliases, with defaults.
- **MAC extraction.** The MS/TP MAC is recovered from an APDU source address.
- **I-Am filtering.** I-Am APDUs are filtered into device records (clause 16.10).
- **Session.** It is started once, and its application object is fetched.
- **Who-Is collection.** Device records are collected, with the last record per device instance winning.
- **Reads and writes.** The decision logic of a confirmed ReadProperty (clause 15.5) and a confirmed WriteProperty (clause 15.9).
- **Object-list walk.** The queue-driven read of a device's `objectList`, index by index.
- **Access table.** The per-object-type access table of clause 12, with `is_writable`.
- **Node paths.** The data-layer node paths that the Who-Is scan and object scan nodes build and parse back.
- **Node registry.** The registry of provided nodes (`datalayerNodes`), which `track_node` appends to and `release_nodes` walks.

Modules, one per concern:

- `Common`: `Option`, `Result`.
- `Text`: Python's `int()` (on ASCII digits), `str()`, `strip`, `split`, `join` and the `\s*(\d+)` match.
- `Config`: `load_bc_ini`.
- `Mac`: `_extract_mstp_mac`.
- `Values`: values and `_json_safe`.
- `Bacnet`: datatypes, requests, replies, and the `Engine` record standing for bacpypes.
- `Session`: the classes `MstpApp` (`_MSTPApp`) and `Core` (`_Core`).
- `Discovery`: `whois`, `iam`.
- `Transactions`: `read`, `write`.
- `Enumeration`: `discover`.
- `Defines`: `defines.py`.
- `NodeManager`: `node_manager.py`.
- `WhoisScan`: `whois_scan_node.py`.
- `DiscoverScan`: `discover_scan_node.py`.

Some state is updated in place in the program. It appears here as classes with `modifies` clauses:

- `_MSTPApp`'s I-Am queue and superclass hand-off.
- `_Core`'s `_started` and `_app`.
- `datalayerNodes`.

Each method is proved against a function or a state change it is specified by. The loops keep their invariants:

- the queue drain and the fold of `whois`;
- the callback chain of `discover`;
- the `_json_safe` append loop;
- the provider loops over devices, fields and objects;
- the nested loop of `release_nodes`.

Foreign behaviour is passed in as parameters:

- Whatever bacpypes decides is a field of `Bacnet.Engine`: `get_datatype`, `cast_out`, `cast_in`, the constructors, `float()` acceptance and `str()` of a value.
- The I-Am APDUs that arrive during the `whois` window are a sequence.
- The replies that arrive before the `discover` deadline are a sequence.
- Whether the stack refuses the loaded settings when `ensure_started` builds `LocalDeviceObject`, the local `Address` and `_MSTPApp` is `Core.refuses`, which gives the exception's message.
- Whether a node registration returns OK is `registerOk`.
- Whether `unregister_node` raises is `raises`.
- `get_uninitialized_default` is `defaultFor`.

## Model

| member | source | states |
|---|---|---|
| Config.FirstSection | provider-source/helper/mstp_services.py:56-60 | `None` exactly when no alias names a section of the file; otherwise the section of an alias that exists |
| Config.Opt | provider-source/helper/mstp_services.py:69-74 | `None` exactly when every alias is unset (no section, or no such option after lower-casing); otherwise the value of one of the aliases |
| Config.OptInt | provider-source/helper/mstp_services.py:69-74 | some integer exactly when an alias is set, and then the integer `int()` reads from it (ASCII digits); the only error is a value `int()` refuses |
| Config.OptIntOr | provider-source/helper/mstp_services.py:69-74 | the default when no alias is set; when one is set, success exactly when `int()` (on ASCII digits) accepts its value, and then that integer; the only error is a value `int()` refuses |
| Config.FirstAliasWins | provider-source/helper/mstp_services.py:69-74 | the first alias that is set decides the option, whatever the later aliases hold |
| Config.MstpOptions | provider-source/helper/mstp_services.py:77-86 | success exactly when the address and the three integer options cast and both address and interface are set; then each field is its option's value or default (`/tmp` for mstpdir); a missing address or interface gives the "address/interface" error; the only other error is a failed integer cast |
| Config.DeviceOptions | provider-source/helper/mstp_services.py:89-95 | success exactly when the three integer options cast; then each field is its option's value or default; the only error is a failed integer cast |
| Config.LoadBcIni | provider-source/helper/mstp_services.py:44-97 | an unreadable file gives `FileNotReadable` and nothing else does; `NoMstpSection` exactly when the file has none of the three MS/TP section names; success implies the address was present |
| Config.MstpDefaults | provider-source/helper/mstp_services.py:77-84 | with only address and interface set: baud 38400, max_masters 127, maxinfo 1, mstpdir `/tmp`, the address cast to int |
| Config.DeviceDefaults | provider-source/helper/mstp_services.py:89-95 | an empty device section gives `MSTP-Client`, 599, 1024, `noSegmentation`, 15 |
| Config.LoadDefaults | provider-source/helper/mstp_services.py:62-97 | a file holding only an MS/TP section with address and interface loads to exactly those defaults |
| Mac.MacOf | provider-source/helper/mstp_services.py:99-121 | a castable `addrAddr` always decides; any MAC returned is one that the source itself or one of its route hops carries (address byte, text digits or `addrAddr`) |
| Mac.ExtractMac | provider-source/helper/mstp_services.py:99-121 | no source gives `None`; any MAC returned is mentioned by the source |
| Mac.FirstByteNext | provider-source/helper/mstp_services.py:107-111 | without a usable `addrAddr`, a non-empty `addrAddress` gives its first byte |
| Mac.RouteDelegatesToLastHop | provider-source/helper/mstp_services.py:112-116 | without `addrAddr` or `addrAddress`, a routed source gives whatever its last hop gives |
| Mac.TextualStation | provider-source/helper/mstp_services.py:117-121 | a text form of whitespace, then decimal digits, then a non-digit gives those digits' value |
| Mac.TextWithoutDigits | provider-source/helper/mstp_services.py:117-121 | a text form whose stripped start is not a digit gives `None` |
| Values.JsonSafeValue | provider-source/helper/mstp_services.py:24-32 | the result is always serialisable; it is the value itself exactly when that is serialisable, and otherwise `Text` of its rendered string |
| Values.JsonSafe | provider-source/helper/mstp_services.py:24-32 | the append loop keeps length and order and makes each element JSON-safe |
| Values.JsonSafeListSerialisable | provider-source/helper/mstp_services.py:24-32 | the whole list is then serialisable, and it is unchanged when it already was |
| Session.CaptureOf | provider-source/helper/mstp_services.py:132-150 | an I-Am whose identifier type is not `device` is refused; a device I-Am gives the record of its instance, max APDU, `str()` of its segmentation, vendor and extracted MAC |
| Session.UnsetSegmentation | provider-source/helper/mstp_services.py:142 | an I-Am without a segmentation value is captured with segmentation `"None"`, as `str(None)` gives |
| Session.Queued | provider-source/helper/mstp_services.py:132-146 | at most one record is queued per APDU, and one exactly when it is a device I-Am that was captured |
| Session.MstpApp.constructor | provider-source/helper/mstp_services.py:126-130 | a new application has an empty I-Am queue and has forwarded and sent nothing |
| Session.MstpApp.Indication | provider-source/helper/mstp_services.py:132-150 | the queue grows by `Queued(apdu)`; the APDU goes to the superclass unless it is a non-device I-Am; nothing is sent |
| Session.MstpApp.Request | provider-source/helper/mstp_services.py:200-207 | a request is appended to what was sent, and the queue is untouched |
| Session.MstpApp.Get | provider-source/helper/mstp_services.py:193-198 | `get_nowait` takes the oldest queued record |
| Session.MstpApp.Drain | provider-source/helper/mstp_services.py:193-198 | draining empties the queue and changes nothing else |
| Session.Core.constructor | provider-source/helper/mstp_services.py:153-157 | the session starts not started, with no application, and keeps the given stack start-up outcome `refuses` |
| Session.StartUp | provider-source/helper/mstp_services.py:159-171 | a configuration error is passed on as `BadConfig`; loaded settings that the stack refuses (`LocalDeviceObject` or `_MSTPApp` raising) give `StackRefused` with its message; otherwise the loaded settings |
| Session.Core.EnsureStarted | provider-source/helper/mstp_services.py:159-171 | once started, a call changes nothing; a start-up error (configuration or stack) is returned and leaves the session not started and the application as it was; otherwise it starts with a fresh application built from the loaded settings |
| Session.Core.Launch | provider-source/helper/mstp_services.py:166-170 | the application is built from exactly the loaded settings, fresh, with an empty queue and nothing forwarded or sent, and the core is started |
| Session.Core.App | provider-source/helper/mstp_services.py:173-177 | raises (with its message) exactly while there is no application; otherwise returns it |
| Session.StartedApp | provider-source/helper/mstp_services.py:159-177 | fails exactly when the session was not started and start-up fails, passing that error on and leaving the application as it was; otherwise the application returned is the running one, or a fresh one that has sent nothing |
| Discovery.WhoIsFor | provider-source/helper/mstp_services.py:200-207 | broadcast exactly when `dest` is not given or empty; directed to `dest` otherwise; range limits set exactly when both bounds are given |
| Discovery.LastWith | provider-source/helper/mstp_services.py:214-222 | the last record received for an instance, `None` exactly when none was received |
| Discovery.UpsertMembers | provider-source/helper/mstp_services.py:220-222 | storing a record under its instance keeps it and every record of another instance, and nothing else |
| Discovery.UpsertInstances | provider-source/helper/mstp_services.py:220-222 | the key order of `seen` is kept; a new instance goes last |
| Discovery.UpsertUnique | provider-source/helper/mstp_services.py:220-222 | storing keeps one record per instance |
| Discovery.CollectUnique | provider-source/helper/mstp_services.py:214-222 | the collection holds at most one record per device instance |
| Discovery.CollectCovers | provider-source/helper/mstp_services.py:214-222 | every instance received has a record in the collection |
| Discovery.CollectLast | provider-source/helper/mstp_services.py:214-222 | each record kept is the last one received for its instance |
| Discovery.CollectOrder | provider-source/helper/mstp_services.py:214-222 | the instances appear in the order of their first arrival |
| Discovery.CollectFacts | provider-source/helper/mstp_services.py:214-222 | the collected list has one record per instance received; each is the last one received for its instance; the order is first arrival |
| Discovery.CollectWindow | provider-source/helper/mstp_services.py:214-222 | the loop returns the collection of the records that the window's APDUs queued, leaves the queue empty, and forwards what `indication` forwards |
| Discovery.Deliver | provider-source/helper/mstp_services.py:214-222 | one APDU: `indication` forwards what it forwards, and the record it queued, if any, is taken off the queue and stored under its instance |
| Discovery.Whois | provider-source/helper/mstp_services.py:182-222 | fails exactly when start-up fails, with that start-up error; otherwise returns the collection of the window, having drained stale entries and sent the one Who-Is built from `dest`, `low`, `high` |
| Discovery.IAmFor | provider-source/helper/mstp_services.py:225-244 | a global-broadcast I-Am carrying the configured device instance (its max APDU, segmentation and vendor are pinned by `Discovery.IAmRoundTrip`) |
| Discovery.IAmRoundTrip | provider-source/helper/mstp_services.py:132-150 | our own I-Am, delivered back, is captured as a record of exactly the configured fields and is forwarded |
| Discovery.Iam | provider-source/helper/mstp_services.py:225-244 | fails exactly when start-up fails, with that start-up error; otherwise sends that I-Am and returns true |
| Transactions.CastTargetOf | provider-source/helper/mstp_services.py:280-286 | an array with index 0 is cast as Unsigned; an array with another index is cast as its subtype; anything else as the whole type |
| Transactions.ReadRequestFor | provider-source/helper/mstp_services.py:255-263 | an unknown datatype gives the "invalid property" error before any request exists; otherwise the request carries the address and index |
| Transactions.ReadOutcome | provider-source/helper/mstp_services.py:269-301 | an ioError gives its string; a reply that is not a ReadPropertyACK gives "no ack"; an ACK of unknown datatype gives "unknown datatype"; otherwise a failed `cast_out` (to the target `CastTargetOf` picks) is raised, and a successful one returns the JSON-safe form of the cast value |
| Transactions.ReadArrayCount | provider-source/helper/mstp_services.py:280-282 | an ACK for index 0 of an array returns the count cast as Unsigned |
| Transactions.ReadArrayElement | provider-source/helper/mstp_services.py:283-284 | an ACK for another index returns the element cast as the subtype |
| Transactions.Read | provider-source/helper/mstp_services.py:247-301 | fails exactly when start-up fails, with that start-up error; otherwise the result is `ReadProperty` for the reply, and a request was sent only when the datatype is known |
| Transactions.ReadOn | provider-source/helper/mstp_services.py:255-301 | on the running application the result is `ReadProperty` for the reply, and exactly the built request, if any, is appended to what was sent |
| Transactions.SplitAtFirst | provider-source/helper/mstp_services.py:327 | `None` exactly when there is no `:`; otherwise the text before the first `:` and the rest |
| Transactions.SplitAtFirstOf | provider-source/helper/mstp_services.py:327 | a code without `:` is split back out of `code:raw` |
| Transactions.UnsignedFrom | provider-source/helper/mstp_services.py:344-345 | parses exactly when `int()` (on ASCII digits) accepts the literal and the value is not negative |
| Transactions.IntegerFrom | provider-source/helper/mstp_services.py:344-345 | parses exactly when `int()` (on ASCII digits) accepts the literal, to that integer |
| Transactions.FloatFrom | provider-source/helper/mstp_services.py:346-347 | parses exactly when `float()` accepts the literal |
| Transactions.Tagged | provider-source/helper/mstp_services.py:328-342 | a code outside the 11 tags is a cast error |
| Transactions.TaggedForm | provider-source/helper/mstp_services.py:326-342 | for AnyAtomic, `code:raw` with a code free of `:` is cast by the tag `code` applied to `raw` |
| Transactions.ParseWriteValue | provider-source/helper/mstp_services.py:323-361 | `null` encodes Null whatever the type; AnyAtomic without `:` is a cast error; "unsupported array subtype" exactly for a non-`null` value at a non-zero index into an array whose element class is neither atomic nor AnyAtomic (constructed or nested-array elements); an element of an atomic or AnyAtomic array goes to that class's constructor; index 0 of an array is built as Integer; Integer, Unsigned and Real/Double literals go to `int()` or `float()` as the type says |
| Transactions.TaggedUnsigned | provider-source/helper/mstp_services.py:330 | `u:<n>` encodes Unsigned n |
| Transactions.TaggedInteger | provider-source/helper/mstp_services.py:331 | `i:<n>` encodes Integer n |
| Transactions.IntegerLiteral | provider-source/helper/mstp_services.py:344-345 | a plain literal for an Integer property encodes that integer |
| Transactions.ArrayCountWrite | provider-source/helper/mstp_services.py:350-352 | index 0 of an array is built as `Integer(value)` |
| Transactions.UnknownTagRefused | provider-source/helper/mstp_services.py:341-361 | an unknown tag is a value cast error |
| Transactions.NegativeUnsignedRefused | provider-source/helper/mstp_services.py:344-361 | a negative literal for an Unsigned property is refused before any request |
| Transactions.WriteRequestFor | provider-source/helper/mstp_services.py:316-376 | an unknown datatype gives the "invalid property" error; a known one gives exactly the parse outcome's error (value cast error, unsupported array subtype, or cast_in error when `cast_in` refuses the parsed value), and a request exactly when the value parsed and `cast_in` accepts it, carrying address, index and priority unchanged |
| Transactions.WriteOutcome | provider-source/helper/mstp_services.py:382-386 | acked exactly on a SimpleAck; an ioError gives its string; any other reply gives "no simple ack" |
| Transactions.WriteProperty | provider-source/helper/mstp_services.py:304-386 | acked only when a request was built and a SimpleAck came back |
| Transactions.Write | provider-source/helper/mstp_services.py:304-386 | fails exactly when start-up fails, with that start-up error; otherwise the result is `WriteProperty` for the reply, and a request was sent only when one was built |
| Transactions.WriteOn | provider-source/helper/mstp_services.py:316-386 | on the running application the result is `WriteProperty` for the reply, and exactly the built request, if any, is appended to what was sent |
| Enumeration.Range | provider-source/helper/mstp_services.py:439 | `list(range(lo, hi))`: empty when hi <= lo, otherwise hi - lo elements, element i being lo + i, so it holds exactly the integers from lo up to but excluding hi |
| Enumeration.Discover | provider-source/helper/mstp_services.py:389-474 | fails exactly when start-up fails, with that start-up error; otherwise returns `Report` of the step function `Run` over the replies, and the application sent exactly the reads of the indices the walk requested, in order |
| Enumeration.WalkObjectList | provider-source/helper/mstp_services.py:398-474 | the callback chain on the application returns `Report` of `Run` over the replies and sends one object-list read per requested index through `request_io`, in order; the I-Am queue is untouched |
| Enumeration.Report | provider-source/helper/mstp_services.py:466-474 | the list is the JSON-safe form of the results, element by element; "discover timeout" when the chain is not done; otherwise the first error when there is one; a plain object list exactly when done without error |
| Enumeration.ReadsOf | provider-source/helper/mstp_services.py:408-413 | one ReadProperty of `device`/`objectList` per index, at that index, in order |
| Enumeration.RunKeepsErrorEnds | provider-source/helper/mstp_services.py:420-459 | once an error is recorded the walk is done, and later replies change nothing |
| Enumeration.AtMostOneError | provider-source/helper/mstp_services.py:420-459 | at most one error is ever recorded, and an error ends the walk |
| Enumeration.ErrorStopsChain | provider-source/helper/mstp_services.py:420-432 | a reply that ends the chain makes the remaining replies irrelevant |
| Enumeration.RunExtends | provider-source/helper/mstp_services.py:443-455 | results and requested indices only grow |
| Enumeration.TimeoutGivesPrefix | provider-source/helper/mstp_services.py:468-469 | what a timeout returns is a prefix of what a later deadline would return |
| Enumeration.EmptyObjectList | provider-source/helper/mstp_services.py:436-440 | a count of 0 finishes after the single index-0 read, with an empty list |
| Enumeration.ReadsInOrder | provider-source/helper/mstp_services.py:408-443 | with the queue at `i..n`, one read per index goes out in ascending order and each element is appended in that order |
| Enumeration.FullWalk | provider-source/helper/mstp_services.py:398-474 | a count of n, then n element ACKs, gives exactly the n decoded objects and requests indices 0..n, with no error |
| Defines.Access | provider-source/defines.py:35-158 | an entry exists exactly when the object type is one of the eight listed and its entry names that property |
| Defines.IsWritable | provider-source/defines.py:161-163 | only a property the entry of a listed type names can be writable; an unknown type or property is not writable and is never an error |
| Defines.PresentValueWritable | provider-source/defines.py:54-132 | presentValue is writable for analogOutput, analogValue, binaryOutput, binaryValue and multistateValue |
| Defines.PresentValueReadOnly | provider-source/defines.py:41-148 | presentValue is read-only for analogInput, binaryInput and accumulator |
| Defines.WritableIn | provider-source/defines.py:54-132 | the presentValue entry of each commandable or value type is "R/W" |
| Defines.ReadOnlyIn | provider-source/defines.py:41-148 | the presentValue entry of each input type and of accumulator is "R" |
| Defines.TableShape | provider-source/defines.py:35-158 | for every listed type: every entry is "R" or "R/W"; objectIdentifier and objectType are "R"; objectName and outOfService are writable |
| Defines.EntryShape | provider-source/defines.py:35-158 | the entry of each of the eight types holds only "R" and "R/W", with objectIdentifier and objectType "R" and objectName and outOfService "R/W" |
| NodeManager.GetTypeStringAsWritten | provider-source/helper/node_manager.py:10-19 | any list name returned is present; only CONFIG_PARAMETER returns |
| NodeManager.AsWrittenRaises | provider-source/helper/node_manager.py:10-19 | as written, the mapping returns exactly for CONFIG_PARAMETER, and every other type raises AttributeError on `DEVICE_NODE` |
| NodeManager.TrackedTypesRaise | provider-source/helper/node_manager.py:14 | the three types the providers pass to `track_node` raise as written; the corrected mapping sends them to the scan and device-property lists |
| NodeManager.GetTypeString | provider-source/helper/node_manager.py:10-19 | the corrected mapping has no list exactly for FOLDER_NODE |
| NodeManager.CorrectedAgrees | provider-source/helper/node_manager.py:12-13 | the corrected mapping agrees with the written one wherever that one returns, and gives configParameterNodes exactly there |
| NodeManager.Registry.constructor | provider-source/helper/node_manager.py:3-8 | the four lists start empty |
| NodeManager.Registry.TrackNode | provider-source/helper/node_manager.py:21-23 | the node is appended to its type's list; the other three lists are unchanged |
| NodeManager.Registry.ReleaseNodes | provider-source/helper/node_manager.py:25-33 | `unregister_node` is called on every tracked node, list by list in order, including after one raises; the lists are not changed |
| NodeManager.ReleaseList | provider-source/helper/node_manager.py:26-32 | every node of one list is released in order, and the ones whose `unregister_node` raises are exactly those noted as failed |
| WhoisScan.PropertyNodes | provider-source/provider_nodes/whois_scan_node.py:172-188 | every node is read-only; each field that is not `None` has its node at `<root>/<key>` |
| WhoisScan.DeviceProperties | provider-source/provider_nodes/whois_scan_node.py:164-188 | a device gives the nodes device_instance, max_apdu, segmentation and vendor_id, in that order, then source_mac only when a MAC was extracted |
| WhoisScan.FixedProperties | provider-source/provider_nodes/whois_scan_node.py:164-188 | the four fields every record has give their four nodes in insertion order |
| WhoisScan.ProvidePropertyNodes | provider-source/provider_nodes/whois_scan_node.py:172-197 | the registered property nodes are appended to the device-property list in field order; nothing else changes |
| WhoisScan.ProvideProperty | provider-source/provider_nodes/whois_scan_node.py:174-197 | a `None` field adds nothing; otherwise its node is tracked when its registration succeeds |
| WhoisScan.ProvideDeviceNodes | provider-source/provider_nodes/whois_scan_node.py:140-197 | the scan node at `<root>/scanObjects` is tracked when its registration succeeds, and then the device's property nodes are |
| WhoisScan.ProvideScanNode | provider-source/provider_nodes/whois_scan_node.py:151-162 | the scan node at `<root>/scanObjects` is appended to the scan list exactly when its registration succeeds; the other lists are unchanged |
| WhoisScan.ScanNodesOf | provider-source/provider_nodes/whois_scan_node.py:133-152 | one scan node per device, in order, at `bacnet/devices/<instance>/scanObjects` |
| WhoisScan.ScanPropertiesReadOnly | provider-source/provider_nodes/whois_scan_node.py:188 | every property node a scan provides is read-only |
| WhoisScan.RunDeviceScan | provider-source/provider_nodes/whois_scan_node.py:127-137 | devices are handled in `whois` order; the scan and property lists grow by exactly the registered nodes of all devices |
| DiscoverScan.DeviceIdOf | provider-source/provider_nodes/discover_scan_node.py:126-127 | `IndexError` exactly when the address has no `/`; otherwise success exactly when `int()` (on ASCII digits) accepts the second-to-last `/` segment, with that integer, and a `ValueError` naming the segment when not |
| DiscoverScan.ScanAddressRoundTrip | provider-source/provider_nodes/discover_scan_node.py:126-127 | the scan address built for device n parses back to n |
| DiscoverScan.ObjectPathReplacesLast | provider-source/provider_nodes/discover_scan_node.py:137-141 | the object path is the scan address without its last segment, then `/<type>/<instance>` |
| DiscoverScan.ObjectNode | provider-source/provider_nodes/discover_scan_node.py:136-148 | the node holds the type's default, and is read-only exactly when the table does not mark the type's presentValue "R/W" |
| DiscoverScan.ObjectNodeUnderDevice | provider-source/provider_nodes/discover_scan_node.py:137-141 | an object of device n lands at `bacnet/devices/<n>/<type>/<instance>` |
| DiscoverScan.ObjectNodeAccess | provider-source/provider_nodes/discover_scan_node.py:143 | analogOutput and binaryValue objects get writable nodes; analogInput and accumulator objects get read-only ones |
| DiscoverScan.ObjectNodes | provider-source/provider_nodes/discover_scan_node.py:132-134 | one node per object-list entry, in list order |
| DiscoverScan.ProvideObjectNode | provider-source/provider_nodes/discover_scan_node.py:136-155 | the object's node is appended to the device-property list exactly when its registration succeeds |
| DiscoverScan.RunPropertyScan | provider-source/provider_nodes/discover_scan_node.py:123-134 | a malformed address raises and provides nothing; otherwise the registered object nodes are appended in list order |
| DiscoverScan.ProvideObjectNodes | provider-source/provider_nodes/discover_scan_node.py:132-134 | the registered object nodes are appended to the device-property list in list order; the other lists are unchanged |
| Text.ParseIntOfIntToString | provider-source/provider_nodes/discover_scan_node.py:127 | `int(str(n)) == n` for every integer |
| Text.JoinSplit | provider-source/provider_nodes/discover_scan_node.py:137-141 | joining the split parts with the separator gives the string back |
| Text.SplitAround | provider-source/provider_nodes/discover_scan_node.py:126-137 | splitting `a + sep + b` splits a and b apart |

## Left out

- The bacpypes runtime is not part of this model, and `Engine` stands for its outcomes: `run`, `deferred`, the daemon thread, the lock, `Queue` blocking and `IOCB.wait`.
- Wall-clock deadlines are not modelled. The `whois` window is the sequence of APDUs delivered before the deadline. The `discover` deadline is the point where the delivered replies run out.
- Floating point is not modelled. `Real`/`Double` literals record only the branch taken and whether `float()` accepts the text.
- The bacpypes constructors (Boolean, OctetString, CharacterString, BitString, Date, Time, ObjectIdentifier, Enumerated) are oracles. `cast_in`, `cast_out` and `get_datatype` are oracles too.
- Foreign exception texts and `str()` of a bacpypes value are not modelled. An error keeps its kind: the ioError string, "value cast error", "cast_in error".
- `Address(...)` parsing of `dest` and of the MAC is not modelled. The destination is kept as given. Whether the configured local address parses is part of the `refuses` outcome of start-up.
- Reading `bc.ini` from disk is not modelled. The file is an in-memory map of sections, or missing when it cannot be read.
- `json.dumps` is not modelled. Serialisability is a predicate over the value shapes.
- `print` output is not modelled.
- `cache_device` and `get_mac_for_device` are not part of this model. Their source is not in the repository's shown files. `RunPropertyScan` therefore takes the object list that `discover` returned for the device.
- `get_datalayer_type`, `get_type_address_from_string`, `set_variant_value` and the data-layer registration call are not modelled, because their source is not shown. Registration is the `registerOk` oracle. `get_uninitialized_default` is the `defaultFor` parameter.
- `object_list` entries are modelled only as `(type, instance)` pairs. The program indexes `object[0]` and `object[1]` of whatever the stack returns.
- `\d` and `\s` in the MAC text pattern are ASCII digits and the usual whitespace. Unicode digits are not modelled.
- Text.ParseInt: reads only the ASCII digits `0`-`9`. Python's `int()` also reads every other Unicode decimal digit (`int("٤٢")` and `int("４２")` are 42), so a bc.ini integer option, a write literal or a node-address segment written in such digits is an error in the model where the program accepts it. Every row that says "`int()` accepts" means this ASCII reading.
- `device_property_node.py`, `config_parameter_node.py`, `scan_node.py`, `device_node.py`, `folder_node.py`, `main.py` and `utils.py` are not part of this model. They are data-layer plumbing, JSON file I/O, signals and the service loop. The only use taken from them is that `main.py` tracks the Who-Is scan node with `WHO_IS_SCAN_NODE`.
- The scan node's `register_node` failure message is not modelled. Only the fact that the node is not tracked is.
- Enumeration.ListOf: a whole-type `objectList` value that is neither a list nor a string is appended as one element. This takes `list(value)` to raise for every foreign bacpypes value; one that Python can iterate would be extended element by element instead.
- WhoisScan.ProvideScanNode: assumes the corrected `track_node` mapping of the finding below. As written, the first successful registration raises `AttributeError` in `get_type_string_from_enum` (whois_scan_node.py:162) and ends the scan there.
- WhoisScan.ProvideProperty: assumes the corrected `track_node` mapping. As written, the first successfully registered property node raises `AttributeError` (whois_scan_node.py:197).
- WhoisScan.ProvidePropertyNodes: assumes the corrected `track_node` mapping. As written, no property node is ever appended, because the first registration that succeeds raises.
- WhoisScan.ProvideDeviceNodes: assumes the corrected `track_node` mapping. As written, it raises at the scan node as soon as that registers.
- WhoisScan.RunDeviceScan: assumes the corrected `track_node` mapping. As written, the scan stops with `AttributeError` at the first device whose scan node registers.
- DiscoverScan.ProvideObjectNode: assumes the corrected `track_node` mapping. As written, the first successfully registered object node raises `AttributeError` (discover_scan_node.py:155).
- DiscoverScan.ProvideObjectNodes: assumes the corrected `track_node` mapping. As written, the loop stops with `AttributeError` at the first object node that registers.
- DiscoverScan.RunPropertyScan: assumes the corrected `track_node` mapping. As written, the scan stops with `AttributeError` at the first object node that registers.

## Findings

| source | as written | input that shows it | evidently intended | confidence | as-written member | corrected member |
|---|---|---|---|---|---|---|
| provider-source/helper/node_manager.py:14 | `get_type_string_from_enum` matches `case NodeType.DEVICE_NODE` (and later `NodeType.SCAN_NODE`), members `NodeType` does not have. Python evaluates value patterns in order, so every type except `CONFIG_PARAMETER` raises `AttributeError` | `track_node(NodeType.DISCOVER_SCAN_NODE, scanNode)` in `provide_device_nodes` (whois_scan_node.py:162), and likewise `DEVICE_PROPERTY_NODE` (line 197) and `WHO_IS_SCAN_NODE` (main.py:69) | each tracked type maps to its list: both scan-node types to `scanNodes`, device-property nodes to `devicePropertyNodes` | not executed; high | NodeManager.TrackedTypesRaise | NodeManager.Registry.TrackNode |
