/**
 * The slice of the BACnet stack (bacpypes) that the session layer talks to:
 * property datatypes, the requests it builds, the replies it receives, and
 * an `Engine` record standing for the bacpypes calls whose code is foreign.
 */
module Bacnet {
  import opened Common
  import opened Values

  /** The atomic (primitive) BACnet datatypes of ASHRAE 135 clause 20.2 that bacpypes names. */
  datatype Atomic =
    | NullType
    | BooleanType
    | UnsignedType
    | IntegerType
    | RealType
    | DoubleType
    | OctetStringType
    | CharacterStringType
    | BitStringType
    | EnumeratedType(name: string)
    | DateType
    | TimeType
    | ObjectIdentifierType

  /** What `get_datatype(objectType, property)` returns: a bacpypes class. */
  datatype DataType =
    | AtomicClass(atomic: Atomic)
    | AnyAtomicClass
    | ArrayClass(subtype: DataType)
    | ConstructedClass(name: string)

  /** The encoded `propertyValue` (an `Any`) carried by a ReadProperty-ACK. */
  datatype Payload = Payload(tags: seq<int>)

  /** A value ready for `Any.cast_in`, built by one of the bacpypes constructors. */
  datatype Encoded =
    | NullEncoded                                   // Null()
    | UnsignedEncoded(n: nat)                       // Unsigned(int(x))
    | IntegerEncoded(i: int)                        // Integer(int(x))
    | FloatEncoded(atomic: Atomic, literal: string) // Real(float(x)) / Double(float(x))
    | BuiltFrom(dt: DataType, literal: string)      // dt(x) on the raw string

  datatype Destination = GlobalBroadcast | Station(address: string)

  datatype WhoIsRequest = WhoIsRequest(destination: Destination, range: Option<(int, int)>)

  datatype IAmRequest = IAmRequest(
    destination: Destination, deviceInstance: int, maxApdu: int, segmentation: string, vendorId: int)

  datatype ReadRequest = ReadRequest(
    address: int, objectType: string, instance: int, property: string, arrayIndex: Option<int>)

  datatype WriteRequest = WriteRequest(
    address: int, objectType: string, instance: int, property: string,
    value: Encoded, arrayIndex: Option<int>, priority: Option<int>)

  /** A request handed to the application (`app.request` or `app.request_io`). */
  datatype Outgoing =
    | SendWhoIs(whoIs: WhoIsRequest)
    | SendIAm(iAm: IAmRequest)
    | SendRead(read: ReadRequest)
    | SendWrite(write: WriteRequest)

  /** The confirmed-service response APDUs the session layer distinguishes. */
  datatype Apdu =
    | ReadAck(objectType: string, instance: int, property: string, arrayIndex: Option<int>, value: Payload)
    | SimpleAck
    | OtherApdu(name: string)

  /** How an IOCB completes: `ioError` set, or `ioResponse` set. */
  datatype Reply = IoError(message: string) | Response(apdu: Apdu)

  /**
   * The foreign behaviour the model is parametrised by. `castOut` and
   * `castOutCount` return the decoded value or the text of the exception
   * `cast_out` raises; `builds(dt, x)` says whether the constructor `dt(x)`
   * accepts the string `x`; `parsesFloat` is whether `float(x)` succeeds;
   * `castIn` is whether `Any.cast_in` accepts the value; `render` is `str`.
   */
  datatype Engine = Engine(
    datatypes: map<(string, string), DataType>,
    castOut: (Payload, DataType) -> Result<Value, string>,
    castOutCount: Payload -> Result<nat, string>,
    builds: (DataType, string) -> bool,
    parsesFloat: string -> bool,
    castIn: Encoded -> bool,
    render: Value -> string)
}
