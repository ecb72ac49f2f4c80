/**
 * The confirmed services `read` (ReadProperty, ASHRAE 135 clause 15.5) and
 * `write` (WriteProperty, clause 15.9): what is checked before a request is
 * built, how the write value is parsed, how the reply is decoded, and which
 * outcome is reported.
 */
module Transactions {
  import opened Common
  import opened Config
  import opened Values
  import opened Bacnet
  import opened Session
  import opened Discovery
  import Text

  function InvalidPropertyMessage(objectType: string, property: string): string
  {
    "invalid property '" + property + "' for object type '" + objectType + "'"
  }

  /** How a ReadProperty-ACK's value is cast out. */
  datatype CastTarget =
    | CountTarget                      // array index 0: the element count, as Unsigned
    | ElementTarget(subtype: DataType) // array index n > 0: one element
    | WholeTarget(dt: DataType)        // anything else: the whole datatype

  /**
   * The array special case shared by `read` and `discover`: an array with an
   * index in the ACK is cast per element (index 0 being the count), every
   * other value as its whole datatype.
   */
  function CastTargetOf(dt: DataType, arrayIndex: Option<int>): (t: CastTarget)
    ensures t.CountTarget? <==> dt.ArrayClass? && arrayIndex == Some(0)
    ensures t.ElementTarget? <==> dt.ArrayClass? && arrayIndex.Some? && arrayIndex.value != 0
    ensures t.ElementTarget? ==> t.subtype == dt.subtype
    ensures t.WholeTarget? ==> t.dt == dt
  {
    if dt.ArrayClass? && arrayIndex.Some? then
      if arrayIndex.value == 0 then CountTarget else ElementTarget(dt.subtype)
    else WholeTarget(dt)
  }

  /** `apdu.propertyValue.cast_out(...)` for the chosen target; `Err` is the exception's text. */
  function CastOut(engine: Engine, target: CastTarget, payload: Payload): Result<Value, string>
  {
    match target
    case CountTarget =>
      (match engine.castOutCount(payload)
       case Ok(n) => Ok(Int(n))
       case Err(e) => Err(e))
    case ElementTarget(subtype) => engine.castOut(payload, subtype)
    case WholeTarget(dt) => engine.castOut(payload, dt)
  }

  // ------------------------------------------------------------------ read

  /** The dictionary `read` returns; `Raised` is an exception that escapes it. */
  datatype ReadResult =
    | ReadValue(address: int, objectType: string, instance: int, property: string, index: Option<int>, value: Value)
    | ReadFailed(error: string)
    | Raised(exception: string)

  /** The request `read` sends, or the error it returns before building one. */
  function ReadRequestFor(engine: Engine, addr: int, objectType: string, instance: int, property: string,
                          index: Option<int>): (r: Result<ReadRequest, string>)
    ensures r.Err? <==> (objectType, property) !in engine.datatypes
    ensures r.Err? ==> r.error == InvalidPropertyMessage(objectType, property)
    ensures r.Ok? ==> r.value.address == addr && r.value.arrayIndex == index
                      && r.value.objectType == objectType && r.value.instance == instance && r.value.property == property
  {
    if (objectType, property) !in engine.datatypes then Err(InvalidPropertyMessage(objectType, property))
    else Ok(ReadRequest(addr, objectType, instance, property, index))
  }

  /**
   * The reply side of `read`: an I/O error gives its text, anything but a
   * ReadProperty-ACK gives "no ack", an ACK whose own object type and
   * property have no datatype gives "unknown datatype"; otherwise the
   * value is cast out and made JSON-safe, and the result echoes the request.
   */
  function ReadOutcome(engine: Engine, req: ReadRequest, reply: Reply): (r: ReadResult)
    ensures reply.IoError? ==> r == ReadFailed(reply.message)
    ensures reply.Response? && !reply.apdu.ReadAck? ==> r == ReadFailed("no ack")
    ensures r.ReadValue? ==> Serialisable(r.value) && reply.Response? && reply.apdu.ReadAck?
                             && r.address == req.address && r.objectType == req.objectType
                             && r.instance == req.instance && r.property == req.property && r.index == req.arrayIndex
    ensures reply.Response? && reply.apdu.ReadAck? && (reply.apdu.objectType, reply.apdu.property) !in engine.datatypes ==>
              r == ReadFailed("unknown datatype")
    ensures reply.Response? && reply.apdu.ReadAck? && (reply.apdu.objectType, reply.apdu.property) in engine.datatypes ==>
              var dt := engine.datatypes[(reply.apdu.objectType, reply.apdu.property)];
              var cast := CastOut(engine, CastTargetOf(dt, reply.apdu.arrayIndex), reply.apdu.value);
              && (cast.Err? ==> r == Raised(cast.error))
              && (cast.Ok? ==> r.ReadValue? && r.value == JsonSafeValue(cast.value, engine.render))
  {
    match reply
    case IoError(message) => ReadFailed(message)
    case Response(apdu) =>
      if !apdu.ReadAck? then ReadFailed("no ack")
      else if (apdu.objectType, apdu.property) !in engine.datatypes then ReadFailed("unknown datatype")
      else
        var dt := engine.datatypes[(apdu.objectType, apdu.property)];
        match CastOut(engine, CastTargetOf(dt, apdu.arrayIndex), apdu.value)
        case Err(e) => Raised(e)
        case Ok(v) =>
          ReadValue(req.address, req.objectType, req.instance, req.property, req.arrayIndex,
                    JsonSafeValue(v, engine.render))
  }

  /** `read` as a whole, for the reply the request receives. */
  function ReadProperty(engine: Engine, addr: int, objectType: string, instance: int, property: string,
                        index: Option<int>, reply: Reply): ReadResult
  {
    match ReadRequestFor(engine, addr, objectType, instance, property, index)
    case Err(e) => ReadFailed(e)
    case Ok(req) => ReadOutcome(engine, req, reply)
  }

  /** An ACK for array index 0 reads the element count, as an integer. */
  lemma ReadArrayCount(engine: Engine, req: ReadRequest, objectType: string, instance: int, property: string,
                       payload: Payload, n: nat)
    requires (objectType, property) in engine.datatypes && engine.datatypes[(objectType, property)].ArrayClass?
    requires engine.castOutCount(payload) == Ok(n)
    ensures ReadOutcome(engine, req, Response(ReadAck(objectType, instance, property, Some(0), payload))).value == Int(n)
  {
  }

  /** An ACK for another array index reads one element, cast as the array's subtype. */
  lemma ReadArrayElement(engine: Engine, req: ReadRequest, objectType: string, instance: int, property: string,
                         i: int, payload: Payload, v: Value)
    requires i != 0
    requires (objectType, property) in engine.datatypes && engine.datatypes[(objectType, property)].ArrayClass?
    requires engine.castOut(payload, engine.datatypes[(objectType, property)].subtype) == Ok(v)
    ensures ReadOutcome(engine, req, Response(ReadAck(objectType, instance, property, Some(i), payload))).value
            == JsonSafeValue(v, engine.render)
  {
  }

  /**
   * `read(ini_path, addr, obj_type, obj_inst, prop, index)`, with `reply` the
   * completion of the request's IOCB. An unknown datatype returns before any
   * request is sent.
   */
  method Read(core: Core, path: string, file: Option<Ini>, engine: Engine, addr: int, objectType: string,
              instance: int, property: string, index: Option<int>, reply: Reply)
    returns (r: Result<ReadResult, SessionError>)
    requires core.Valid()
    modifies core, core.app
    ensures core.Valid()
    ensures r.Err? <==> !old(core.started) && StartUp(path, file, core.refuses).Err?
    ensures r.Ok? ==> core.started && r.value == ReadProperty(engine, addr, objectType, instance, property, index, reply)
    ensures r.Ok? ==>
              var sentBefore := if old(core.started) then old(core.app.sent) else [];
              var req := ReadRequestFor(engine, addr, objectType, instance, property, index);
              core.app.sent == sentBefore + (if req.Ok? then [SendRead(req.value)] else [])
    ensures r.Ok? && old(core.started) ==> core.app == old(core.app)
  {
    var started := StartedApp(core, path, file);
    if started.Err? {
      return Err(StartFailed(started.error));
    }
    var result := ReadOn(started.value, engine, addr, objectType, instance, property, index, reply);
    return Ok(result);
  }

  /** The body of `read` once the application is at hand: the request, if any, goes out through it. */
  method ReadOn(app: MstpApp, engine: Engine, addr: int, objectType: string, instance: int, property: string,
                index: Option<int>, reply: Reply)
    returns (result: ReadResult)
    modifies app
    ensures result == ReadProperty(engine, addr, objectType, instance, property, index, reply)
    ensures var req := ReadRequestFor(engine, addr, objectType, instance, property, index);
            app.sent == old(app.sent) + (if req.Ok? then [SendRead(req.value)] else [])
  {
    match ReadRequestFor(engine, addr, objectType, instance, property, index)
    case Err(e) =>
      return ReadFailed(e);
    case Ok(req) =>
      app.Request(SendRead(req));
      return ReadOutcome(engine, req, reply);
  }

  // ----------------------------------------------------------------- write

  /** `s.split(c, 1)` when it yields two parts: the text before the first `c` and the rest. */
  function SplitAtFirst(s: string, c: char): (r: Option<(string, string)>)
    ensures r.None? <==> c !in s
    ensures r.Some? ==> s == r.value.0 + [c] + r.value.1 && c !in r.value.0
  {
    if |s| == 0 then None
    else if s[0] == c then
      assert s == [] + [c] + s[1..];
      Some(([], s[1..]))
    else
      match SplitAtFirst(s[1..], c)
      case None => None
      case Some((a, b)) =>
        assert s == [s[0]] + s[1..];
        Some(([s[0]] + a, b))
  }

  lemma {:induction false} SplitAtFirstOf(a: string, b: string, c: char)
    requires c !in a
    ensures SplitAtFirst(a + [c] + b, c) == Some((a, b))
  {
    var s := a + [c] + b;
    if |a| == 0 {
      assert s == [c] + b;
      assert s[1..] == b;
    } else {
      assert s[0] == a[0];
      assert s[1..] == a[1..] + [c] + b;
      assert c !in a[1..] by {
        forall i | 0 <= i < |a[1..]| ensures a[1..][i] != c { assert a[1..][i] == a[i + 1]; }
      }
      SplitAtFirstOf(a[1..], b, c);
      assert [a[0]] + a[1..] == a;
    }
  }

  /** The outcome of the value parsing block of `write`. */
  datatype Parse = Parsed(encoded: Encoded) | CastError | UnsupportedSubtype

  /** The eleven tags of the `code:payload` form. */
  const Tags: seq<string> := ["b", "u", "i", "r", "d", "o", "c", "bs", "date", "time", "id"]

  /** A bacpypes constructor applied to the raw string. */
  function Build(engine: Engine, dt: DataType, literal: string): (p: Parse)
    ensures p != UnsupportedSubtype
    ensures p.Parsed? <==> engine.builds(dt, literal)
  {
    if engine.builds(dt, literal) then Parsed(BuiltFrom(dt, literal)) else CastError
  }

  /** `Unsigned(int(x))`: `int` must parse and bacpypes' Unsigned refuses a negative value. */
  function UnsignedFrom(literal: string): (p: Parse)
    ensures p.Parsed? <==> Text.ParseInt(literal).Some? && Text.ParseInt(literal).value >= 0
    ensures p.Parsed? ==> p.encoded == UnsignedEncoded(Text.ParseInt(literal).value)
  {
    match Text.ParseInt(literal)
    case None => CastError
    case Some(n) => if n < 0 then CastError else Parsed(UnsignedEncoded(n))
  }

  /** `Integer(int(x))`. */
  function IntegerFrom(literal: string): (p: Parse)
    ensures p.Parsed? <==> Text.ParseInt(literal).Some?
    ensures p.Parsed? ==> p.encoded == IntegerEncoded(Text.ParseInt(literal).value)
  {
    match Text.ParseInt(literal)
    case None => CastError
    case Some(n) => Parsed(IntegerEncoded(n))
  }

  /** `Real(float(x))` / `Double(float(x))`. */
  function FloatFrom(engine: Engine, atomic: Atomic, literal: string): (p: Parse)
    ensures p.Parsed? <==> engine.parsesFloat(literal)
  {
    if engine.parsesFloat(literal) then Parsed(FloatEncoded(atomic, literal)) else CastError
  }

  /** The lookup table `lut[code]` of `write` and the call of the caster on the payload. */
  function Tagged(engine: Engine, code: string, raw: string): (p: Parse)
    ensures code !in Tags ==> p == CastError
    ensures p != UnsupportedSubtype
  {
    if code == "b" then Build(engine, AtomicClass(BooleanType), raw)
    else if code == "u" then UnsignedFrom(raw)
    else if code == "i" then IntegerFrom(raw)
    else if code == "r" then FloatFrom(engine, RealType, raw)
    else if code == "d" then FloatFrom(engine, DoubleType, raw)
    else if code == "o" then Build(engine, AtomicClass(OctetStringType), raw)
    else if code == "c" then Build(engine, AtomicClass(CharacterStringType), raw)
    else if code == "bs" then Build(engine, AtomicClass(BitStringType), raw)
    else if code == "date" then Build(engine, AtomicClass(DateType), raw)
    else if code == "time" then Build(engine, AtomicClass(TimeType), raw)
    else if code == "id" then Build(engine, AtomicClass(ObjectIdentifierType), raw)
    else CastError
  }

  /**
   * The parse / cast block of `write`: "null" is Null whatever the
   * datatype; AnyAtomic takes `code:payload`; Integer and Unsigned go
   * through `int`, Real and Double through `float`, other atomic types
   * through their constructor; an array element is written with an index
   * (0 meaning the count, written as Integer), through the element class's
   * constructor when that class is atomic (AnyAtomic is a subclass of
   * Atomic in bacpypes, so it counts); anything else is built from
   * the string as a best effort.
   */
  function ParseWriteValue(engine: Engine, dt: DataType, value: string, index: Option<int>): (p: Parse)
    ensures value == "null" ==> p == Parsed(NullEncoded)
    ensures p.UnsupportedSubtype? <==>
              value != "null" && dt.ArrayClass? && index.Some? && index.value != 0
              && !(dt.subtype.AtomicClass? || dt.subtype.AnyAtomicClass?)
    ensures && value != "null" && dt.ArrayClass? && index.Some? && index.value != 0
            && (dt.subtype.AtomicClass? || dt.subtype.AnyAtomicClass?)
            ==> p == Build(engine, dt.subtype, value)
    ensures value != "null" && dt.AnyAtomicClass? && ':' !in value ==> p == CastError
    ensures value != "null" && dt == AtomicClass(IntegerType) ==> p == IntegerFrom(value)
    ensures value != "null" && dt == AtomicClass(UnsignedType) ==> p == UnsignedFrom(value)
    ensures value != "null" && (dt == AtomicClass(RealType) || dt == AtomicClass(DoubleType)) ==>
              p == FloatFrom(engine, dt.atomic, value)
    ensures value != "null" && dt.ArrayClass? && index == Some(0) ==> p == Build(engine, AtomicClass(IntegerType), value)
  {
    if value == "null" then Parsed(NullEncoded)
    else match dt
      case AnyAtomicClass =>
        (match SplitAtFirst(value, ':')
         case None => CastError
         case Some((code, raw)) => Tagged(engine, code, raw))
      case AtomicClass(atomic) =>
        if atomic == IntegerType then IntegerFrom(value)
        else if atomic == UnsignedType then UnsignedFrom(value)
        else if atomic == RealType || atomic == DoubleType then FloatFrom(engine, atomic, value)
        else Build(engine, dt, value)
      case ArrayClass(subtype) =>
        if index.None? then Build(engine, dt, value)
        else if index.value == 0 then Build(engine, AtomicClass(IntegerType), value)
        else if subtype.AtomicClass? || subtype.AnyAtomicClass? then Build(engine, subtype, value)
        else UnsupportedSubtype
      case ConstructedClass(_) => Build(engine, dt, value)
  }

  /** The dictionary `write` returns. */
  datatype WriteResult =
    | Acked
    | WriteInvalidProperty(objectType: string, property: string)
    | ValueCastError
    | UnsupportedArraySubtype(property: string)
    | CastInError
    | WriteIoError(message: string)
    | NoSimpleAck

  /** The `error` text of a failed write; a cast error's exception text is not modelled. */
  function WriteErrorText(r: WriteResult): string
    requires !r.Acked?
  {
    match r
    case WriteInvalidProperty(t, p) => InvalidPropertyMessage(t, p)
    case ValueCastError => "value cast error: "
    case UnsupportedArraySubtype(p) => "unsupported array subtype for " + p
    case CastInError => "WriteProperty cast_in error: "
    case WriteIoError(m) => m
    case NoSimpleAck => "no simple ack"
  }

  /**
   * Everything `write` decides before it sends: the request, or the result
   * it returns without sending. Index and priority are passed through
   * unchecked.
   */
  function WriteRequestFor(engine: Engine, addr: int, objectType: string, instance: int, property: string,
                           value: string, index: Option<int>, priority: Option<int>): (r: Result<WriteRequest, WriteResult>)
    ensures (objectType, property) !in engine.datatypes ==> r == Err(WriteInvalidProperty(objectType, property))
    ensures r.Ok? ==> (objectType, property) in engine.datatypes
                      && ParseWriteValue(engine, engine.datatypes[(objectType, property)], value, index) == Parsed(r.value.value)
                      && engine.castIn(r.value.value)
                      && r.value.address == addr && r.value.objectType == objectType && r.value.instance == instance
                      && r.value.property == property && r.value.arrayIndex == index && r.value.priority == priority
    ensures r.Err? ==> r.error in {WriteInvalidProperty(objectType, property), ValueCastError,
                                   UnsupportedArraySubtype(property), CastInError}
    ensures (objectType, property) in engine.datatypes ==>
              var p := ParseWriteValue(engine, engine.datatypes[(objectType, property)], value, index);
              && (p.CastError? ==> r == Err(ValueCastError))
              && (p.UnsupportedSubtype? ==> r == Err(UnsupportedArraySubtype(property)))
              && (p.Parsed? && !engine.castIn(p.encoded) ==> r == Err(CastInError))
              && (p.Parsed? && engine.castIn(p.encoded) ==> r.Ok?)
  {
    if (objectType, property) !in engine.datatypes then Err(WriteInvalidProperty(objectType, property))
    else
      match ParseWriteValue(engine, engine.datatypes[(objectType, property)], value, index)
      case CastError => Err(ValueCastError)
      case UnsupportedSubtype => Err(UnsupportedArraySubtype(property))
      case Parsed(encoded) =>
        if !engine.castIn(encoded) then Err(CastInError)
        else Ok(WriteRequest(addr, objectType, instance, property, encoded, index, priority))
  }

  /** The reply side of `write`: only a SimpleAck is a success. */
  function WriteOutcome(reply: Reply): (r: WriteResult)
    ensures r.Acked? <==> reply == Response(SimpleAck)
    ensures reply.IoError? ==> r == WriteIoError(reply.message)
    ensures reply.Response? && reply.apdu != SimpleAck ==> r == NoSimpleAck
  {
    match reply
    case IoError(message) => WriteIoError(message)
    case Response(apdu) => if apdu == SimpleAck then Acked else NoSimpleAck
  }

  /** `write` as a whole, for the reply the request receives. */
  function WriteProperty(engine: Engine, addr: int, objectType: string, instance: int, property: string,
                         value: string, index: Option<int>, priority: Option<int>, reply: Reply): (r: WriteResult)
    ensures r.Acked? ==> reply == Response(SimpleAck)
                         && WriteRequestFor(engine, addr, objectType, instance, property, value, index, priority).Ok?
  {
    match WriteRequestFor(engine, addr, objectType, instance, property, value, index, priority)
    case Err(early) => early
    case Ok(req) => WriteOutcome(reply)
  }

  /**
   * `write(ini_path, addr, obj_type, obj_inst, prop, value, index, priority)`,
   * with `reply` the completion of the request's IOCB. Nothing is sent
   * unless the value parsed and `cast_in` accepted it.
   */
  method Write(core: Core, path: string, file: Option<Ini>, engine: Engine, addr: int, objectType: string,
               instance: int, property: string, value: string, index: Option<int>, priority: Option<int>, reply: Reply)
    returns (r: Result<WriteResult, SessionError>)
    requires core.Valid()
    modifies core, core.app
    ensures core.Valid()
    ensures r.Err? <==> !old(core.started) && StartUp(path, file, core.refuses).Err?
    ensures r.Ok? ==> core.started
                      && r.value == WriteProperty(engine, addr, objectType, instance, property, value, index, priority, reply)
    ensures r.Ok? ==>
              var sentBefore := if old(core.started) then old(core.app.sent) else [];
              var req := WriteRequestFor(engine, addr, objectType, instance, property, value, index, priority);
              core.app.sent == sentBefore + (if req.Ok? then [SendWrite(req.value)] else [])
    ensures r.Ok? && old(core.started) ==> core.app == old(core.app)
  {
    var started := StartedApp(core, path, file);
    if started.Err? {
      return Err(StartFailed(started.error));
    }
    var result := WriteOn(started.value, engine, addr, objectType, instance, property, value, index, priority, reply);
    return Ok(result);
  }

  /** The body of `write` once the application is at hand: the request, if one is built, goes out through it. */
  method WriteOn(app: MstpApp, engine: Engine, addr: int, objectType: string, instance: int, property: string,
                 value: string, index: Option<int>, priority: Option<int>, reply: Reply)
    returns (result: WriteResult)
    modifies app
    ensures result == WriteProperty(engine, addr, objectType, instance, property, value, index, priority, reply)
    ensures var req := WriteRequestFor(engine, addr, objectType, instance, property, value, index, priority);
            app.sent == old(app.sent) + (if req.Ok? then [SendWrite(req.value)] else [])
  {
    match WriteRequestFor(engine, addr, objectType, instance, property, value, index, priority)
    case Err(early) =>
      return early;
    case Ok(req) =>
      app.Request(SendWrite(req));
      return WriteOutcome(reply);
  }

  // ------------------------------------------------------- write lemmas

  /** `"u:" + str(n)` for an AnyAtomic property encodes the Unsigned `n`. */
  lemma TaggedUnsigned(engine: Engine, n: nat, index: Option<int>)
    ensures ParseWriteValue(engine, AnyAtomicClass, "u:" + Text.NatToString(n), index) == Parsed(UnsignedEncoded(n))
  {
    var d := Text.NatToString(n);
    assert "u:" + d == "u" + ":" + d;
    TaggedForm(engine, "u", d, index);
    assert Tagged(engine, "u", d) == UnsignedFrom(d);
    Text.ParseIntOfIntToString(n);
  }

  /** `"i:" + str(n)` for an AnyAtomic property encodes the Integer `n`, negative or not. */
  lemma TaggedInteger(engine: Engine, n: int, index: Option<int>)
    ensures ParseWriteValue(engine, AnyAtomicClass, "i:" + Text.IntToString(n), index) == Parsed(IntegerEncoded(n))
  {
    var d := Text.IntToString(n);
    assert "i:" + d == "i" + ":" + d;
    TaggedForm(engine, "i", d, index);
    assert Tagged(engine, "i", d) == IntegerFrom(d);
    Text.ParseIntOfIntToString(n);
  }

  /** `str(n)` written to an Integer property encodes `n`. */
  lemma IntegerLiteral(engine: Engine, n: int, index: Option<int>)
    ensures ParseWriteValue(engine, AtomicClass(IntegerType), Text.IntToString(n), index) == Parsed(IntegerEncoded(n))
  {
    Text.ParseIntOfIntToString(n);
    assert Text.IntToString(n) != "null" by {
      Text.NatToStringDigits(if n < 0 then -n else n);
      assert Text.IntToString(n)[|Text.IntToString(n)| - 1] != 'l';
    }
  }

  /** A negative number written to an Unsigned property is a cast error: nothing is sent. */
  lemma NegativeUnsignedRefused(engine: Engine, addr: int, objectType: string, instance: int, property: string,
                                n: int, index: Option<int>, priority: Option<int>)
    requires n < 0
    requires (objectType, property) in engine.datatypes
    requires engine.datatypes[(objectType, property)] == AtomicClass(UnsignedType)
    ensures WriteRequestFor(engine, addr, objectType, instance, property, Text.IntToString(n), index, priority)
            == Err(ValueCastError)
  {
    Text.ParseIntOfIntToString(n);
    assert Text.IntToString(n) != "null" by {
      assert Text.IntToString(n)[0] == '-';
    }
  }

  /** Writing index 0 of an array always encodes an Integer built from the string. */
  lemma ArrayCountWrite(engine: Engine, dt: DataType, value: string)
    requires dt.ArrayClass? && value != "null"
    ensures ParseWriteValue(engine, dt, value, Some(0)) == Build(engine, AtomicClass(IntegerType), value)
  {
  }

  /** With an unknown tag the write is a cast error, whatever the payload. */
  lemma UnknownTagRefused(engine: Engine, code: string, raw: string, index: Option<int>)
    requires code !in Tags && ':' !in code
    ensures ParseWriteValue(engine, AnyAtomicClass, code + ":" + raw, index) == CastError
  {
    TaggedForm(engine, code, raw, index);
  }

  /** A value of the form `code:raw` for an AnyAtomic property goes to the caster of `code`. */
  lemma TaggedForm(engine: Engine, code: string, raw: string, index: Option<int>)
    requires ':' !in code
    ensures ParseWriteValue(engine, AnyAtomicClass, code + ":" + raw, index) == Tagged(engine, code, raw)
  {
    var s := code + ":" + raw;
    assert s == code + [':'] + raw;
    SplitAtFirstOf(code, raw, ':');
    assert s != "null" by { assert s[|code|] == ':'; }
  }
}
