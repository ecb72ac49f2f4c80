/**
 * `discover`: walking a device's `objectList` array with one ReadProperty
 * per index. Index 0 gives the element count, which replaces the queue of
 * indices still to read by `1..count`; each element read appends to the
 * results; the first failure ends the walk. The callbacks run one after
 * another, so the walk is a step function over the replies in the order
 * they arrive; running out of replies before the walk ends is the timeout.
 */
module Enumeration {
  import opened Common
  import opened Values
  import opened Bacnet
  import opened Config
  import opened Session
  import opened Discovery
  import opened Transactions

  /** The walk's mutable state: `index_queue`, `results`, `error_holder`, `done`, and the indices sent so far. */
  datatype Walk = Walk(queue: seq<int>, results: seq<Value>, errors: seq<string>, done: bool, requested: seq<int>)

  /** The state before `_send_next` first runs: the queue holds index 0 only. */
  const Start := Walk([0], [], [], false, [])

  /** `list(range(lo, hi))`. */
  function Range(lo: int, hi: int): (r: seq<int>)
    ensures |r| == if hi < lo then 0 else hi - lo
    ensures forall i :: 0 <= i < |r| ==> r[i] == lo + i
    ensures forall x :: x in r <==> lo <= x < hi
  {
    if hi <= lo then []
    else
      var r := seq(hi - lo, i => lo + i);
      assert forall x :: lo <= x < hi ==> x in r by {
        forall x | lo <= x < hi
          ensures x in r
        {
          assert r[x - lo] == x;
        }
      }
      r
  }

  /** `results.extend(list(value))`, or `results.append(value)` when `list` raises. */
  function ListOf(v: Value): seq<Value>
  {
    match v
    case Items(elems) => elems
    case Text(s) => seq(|s|, i requires 0 <= i < |s| => Text([s[i]]))
    case _ => [v]
  }

  /** The walk ends with an error. */
  function Fail(s: Walk, message: string): Walk
  {
    s.(errors := s.errors + [message], done := true)
  }

  /** `_on_reply`: the state after the reply to the read just sent. */
  function OnReply(engine: Engine, s: Walk, reply: Reply): Walk
  {
    match reply
    case IoError(message) => Fail(s, message)
    case Response(apdu) =>
      if !apdu.ReadAck? then Fail(s, "not an ack")
      else if (apdu.objectType, apdu.property) !in engine.datatypes then Fail(s, "unknown datatype for objectList")
      else
        var dt := engine.datatypes[(apdu.objectType, apdu.property)];
        match CastTargetOf(dt, apdu.arrayIndex)
        case CountTarget =>
          (match engine.castOutCount(apdu.value)
           case Err(e) => Fail(s, e)
           case Ok(count) => s.(queue := Range(1, count + 1)))
        case ElementTarget(subtype) =>
          (match engine.castOut(apdu.value, subtype)
           case Err(e) => Fail(s, e)
           case Ok(v) => s.(results := s.results + [v]))
        case WholeTarget(_) =>
          (match engine.castOut(apdu.value, dt)
           case Err(e) => Fail(s, e)
           case Ok(v) => s.(results := s.results + ListOf(v)))
  }

  /**
   * `_send_next` and the replies that follow: an empty queue ends the walk;
   * otherwise the next index is sent, and either its reply is processed or,
   * when no reply comes, the walk stops where it is (the timeout).
   */
  function Run(engine: Engine, s: Walk, replies: seq<Reply>): Walk
    decreases |replies|
  {
    if s.done then s
    else if |s.queue| == 0 then s.(done := true)
    else
      var sent := s.(queue := s.queue[1..], requested := s.requested + [s.queue[0]]);
      if |replies| == 0 then sent
      else Run(engine, OnReply(engine, sent, replies[0]), replies[1..])
  }

  /** The dictionary `discover` returns. */
  datatype Discovered = ObjectList(objects: seq<Value>) | DiscoverError(error: string, objects: seq<Value>)

  /** The read request `_send_next` builds for an index. */
  function ObjectListRead(addrMac: int, deviceId: int, index: int): ReadRequest
  {
    ReadRequest(addrMac, "device", deviceId, "objectList", Some(index))
  }

  /** The read requests sent for the indices `idxs`, in order. */
  function ReadsOf(addrMac: int, deviceId: int, idxs: seq<int>): (r: seq<Outgoing>)
    ensures |r| == |idxs|
    ensures forall i :: 0 <= i < |idxs| ==> r[i] == SendRead(ObjectListRead(addrMac, deviceId, idxs[i]))
  {
    if |idxs| == 0 then []
    else ReadsOf(addrMac, deviceId, idxs[..|idxs| - 1]) + [SendRead(ObjectListRead(addrMac, deviceId, idxs[|idxs| - 1]))]
  }

  lemma ReadsStep(addrMac: int, deviceId: int, idxs: seq<int>, idx: int)
    ensures ReadsOf(addrMac, deviceId, idxs + [idx]) == ReadsOf(addrMac, deviceId, idxs) + [SendRead(ObjectListRead(addrMac, deviceId, idx))]
  {
    assert (idxs + [idx])[..|idxs|] == idxs;
  }

  /**
   * What `discover` returns for the walk's final state: the JSON-safe
   * list, with "discover timeout" when the chain is not done, and the first
   * recorded error when there is one.
   */
  function Report(w: Walk, render: Value -> string): (d: Discovered)
    ensures |d.objects| == |w.results|
    ensures forall i :: 0 <= i < |w.results| ==> d.objects[i] == JsonSafeValue(w.results[i], render)
    ensures !w.done ==> d == DiscoverError("discover timeout", d.objects)
    ensures w.done && |w.errors| > 0 ==> d == DiscoverError(w.errors[0], d.objects)
    ensures d.ObjectList? <==> w.done && |w.errors| == 0
  {
    var objects := seq(|w.results|, i requires 0 <= i < |w.results| => JsonSafeValue(w.results[i], render));
    if !w.done then DiscoverError("discover timeout", objects)
    else if |w.errors| > 0 then DiscoverError(w.errors[0], objects)
    else ObjectList(objects)
  }

  /**
   * `discover(ini_path, addr_mac, device_id, timeout)`: the session is
   * started and its application fetched as for every operation; then the
   * object list is walked. `replies` are the completions of the reads, in
   * order, that arrive before the deadline.
   */
  method Discover(core: Core, path: string, file: Option<Ini>, engine: Engine, addrMac: int, deviceId: int,
                  replies: seq<Reply>)
    returns (r: Result<Discovered, SessionError>)
    requires core.Valid()
    modifies core, core.app
    ensures core.Valid()
    ensures r.Err? <==> !old(core.started) && StartUp(path, file, core.refuses).Err?
    ensures r.Err? ==> r == Err(StartFailed(StartUp(path, file, core.refuses).error)) && !core.started
    ensures r.Ok? ==> core.started && r.value == Report(Run(engine, Start, replies), engine.render)
    ensures r.Ok? ==>
              var sentBefore := if old(core.started) then old(core.app.sent) else [];
              core.app.sent == sentBefore + ReadsOf(addrMac, deviceId, Run(engine, Start, replies).requested)
    ensures r.Ok? && old(core.started) ==> core.app == old(core.app)
  {
    var started := StartedApp(core, path, file);
    if started.Err? {
      return Err(StartFailed(started.error));
    }
    var result := WalkObjectList(started.value, engine, addrMac, deviceId, replies);
    return Ok(result);
  }

  /**
   * The callback chain of `discover` on its application: `_send_next`
   * sends the read for the next queued index through `app.request_io`,
   * and `_on_reply` processes the reply; the loop is the chain.
   */
  method WalkObjectList(app: MstpApp, engine: Engine, addrMac: int, deviceId: int, replies: seq<Reply>)
    returns (result: Discovered)
    modifies app
    ensures result == Report(Run(engine, Start, replies), engine.render)
    ensures app.sent == old(app.sent) + ReadsOf(addrMac, deviceId, Run(engine, Start, replies).requested)
    ensures app.iamQueue == old(app.iamQueue) && app.forwarded == old(app.forwarded)
  {
    var w := Start;
    var k := 0;
    var waiting := false;
    while !w.done && !waiting
      invariant 0 <= k <= |replies|
      invariant app.sent == old(app.sent) + ReadsOf(addrMac, deviceId, w.requested)
      invariant app.iamQueue == old(app.iamQueue) && app.forwarded == old(app.forwarded)
      invariant !waiting ==> Run(engine, Start, replies) == Run(engine, w, replies[k..])
      invariant waiting ==> Run(engine, Start, replies) == w && !w.done
      decreases |replies| - k, if w.done || waiting then 0 else 1
    {
      if |w.queue| == 0 {
        w := w.(done := true);
        break;
      }
      var idx := w.queue[0];
      SendNext(app, addrMac, deviceId, old(app.sent), w.requested, idx);
      w := w.(queue := w.queue[1..], requested := w.requested + [idx]);
      if k == |replies| {
        waiting := true;
        break;
      }
      var reply := replies[k];
      assert replies[k..][1..] == replies[k + 1..];
      k := k + 1;
      w := HandleReply(engine, w, reply);
    }
    result := Summarise(w, engine.render);
  }

  /** `_send_next` past its empty-queue test: the read for `idx` leaves through the application. */
  method SendNext(app: MstpApp, addrMac: int, deviceId: int, ghost before: seq<Outgoing>, ghost requested: seq<int>, idx: int)
    requires app.sent == before + ReadsOf(addrMac, deviceId, requested)
    modifies app
    ensures app.sent == before + ReadsOf(addrMac, deviceId, requested + [idx])
    ensures app.iamQueue == old(app.iamQueue) && app.forwarded == old(app.forwarded)
  {
    ReadsStep(addrMac, deviceId, requested, idx);
    AppendAssoc(before, ReadsOf(addrMac, deviceId, requested), [SendRead(ObjectListRead(addrMac, deviceId, idx))]);
    app.Request(SendRead(ObjectListRead(addrMac, deviceId, idx)));
  }

  /** `_on_reply` on the closure's variables: the state after one reply. */
  method HandleReply(engine: Engine, s: Walk, reply: Reply) returns (t: Walk)
    ensures t == OnReply(engine, s, reply)
    ensures t.requested == s.requested
  {
    t := s;
    if reply.IoError? {
      t := t.(errors := t.errors + [reply.message], done := true);
    } else if !reply.apdu.ReadAck? {
      t := t.(errors := t.errors + ["not an ack"], done := true);
    } else if (reply.apdu.objectType, reply.apdu.property) !in engine.datatypes {
      t := t.(errors := t.errors + ["unknown datatype for objectList"], done := true);
    } else {
      var dt := engine.datatypes[(reply.apdu.objectType, reply.apdu.property)];
      if dt.ArrayClass? && reply.apdu.arrayIndex.Some? {
        if reply.apdu.arrayIndex.value == 0 {
          var count := engine.castOutCount(reply.apdu.value);
          if count.Err? {
            t := t.(errors := t.errors + [count.error], done := true);
          } else {
            t := t.(queue := Range(1, count.value + 1));
          }
        } else {
          var value := engine.castOut(reply.apdu.value, dt.subtype);
          if value.Err? {
            t := t.(errors := t.errors + [value.error], done := true);
          } else {
            t := t.(results := t.results + [value.value]);
          }
        }
      } else {
        var value := engine.castOut(reply.apdu.value, dt);
        if value.Err? {
          t := t.(errors := t.errors + [value.error], done := true);
        } else {
          t := t.(results := t.results + ListOf(value.value));
        }
      }
    }
  }

  /** The end of `discover`: the dictionary built from the walk's final state. */
  method Summarise(w: Walk, render: Value -> string) returns (d: Discovered)
    ensures d == Report(w, render)
  {
    var objects := JsonSafe(w.results, render);
    if !w.done {
      d := DiscoverError("discover timeout", objects);
    } else if |w.errors| > 0 {
      d := DiscoverError(w.errors[0], objects);
    } else {
      d := ObjectList(objects);
    }
  }

  // ------------------------------------------------------------ properties

  /** At most one error is ever recorded, and recording one ends the walk. */
  predicate ErrorEnds(s: Walk)
  {
    |s.errors| <= 1 && (|s.errors| == 1 ==> s.done)
  }

  lemma {:induction false} RunKeepsErrorEnds(engine: Engine, s: Walk, replies: seq<Reply>)
    requires ErrorEnds(s)
    ensures ErrorEnds(Run(engine, s, replies))
    decreases |replies|
  {
    if !s.done && |s.queue| > 0 && |replies| > 0 {
      var sent := s.(queue := s.queue[1..], requested := s.requested + [s.queue[0]]);
      RunKeepsErrorEnds(engine, OnReply(engine, sent, replies[0]), replies[1..]);
    }
  }

  /** `discover` reports the only error there is: the first one stopped the chain. */
  lemma AtMostOneError(engine: Engine, replies: seq<Reply>)
    ensures |Run(engine, Start, replies).errors| <= 1
    ensures |Run(engine, Start, replies).errors| == 1 ==> Run(engine, Start, replies).done
  {
    RunKeepsErrorEnds(engine, Start, replies);
  }

  /** Once a reply fails, every later reply is ignored. */
  lemma ErrorStopsChain(engine: Engine, s: Walk, replies: seq<Reply>)
    requires !s.done && |s.queue| > 0 && |replies| > 0
    requires OnReply(engine, s.(queue := s.queue[1..], requested := s.requested + [s.queue[0]]), replies[0]).done
    ensures Run(engine, s, replies) == Run(engine, s, replies[..1])
  {
  }

  /** A walk only grows: results and requests are extended, never rewritten. */
  lemma {:induction false} RunExtends(engine: Engine, s: Walk, replies: seq<Reply>)
    ensures s.results <= Run(engine, s, replies).results
    ensures s.requested <= Run(engine, s, replies).requested
    decreases |replies|
  {
    if !s.done && |s.queue| > 0 && |replies| > 0 {
      var sent := s.(queue := s.queue[1..], requested := s.requested + [s.queue[0]]);
      RunExtends(engine, OnReply(engine, sent, replies[0]), replies[1..]);
    }
  }

  /**
   * The partial list of a timeout is a prefix of what waiting for more
   * replies would have given.
   */
  lemma {:induction false} TimeoutGivesPrefix(engine: Engine, s: Walk, early: seq<Reply>, late: seq<Reply>)
    ensures Run(engine, s, early).results <= Run(engine, s, early + late).results
    ensures Run(engine, s, early).requested <= Run(engine, s, early + late).requested
    decreases |early|
  {
    if !s.done && |s.queue| > 0 {
      var sent := s.(queue := s.queue[1..], requested := s.requested + [s.queue[0]]);
      if |early| == 0 {
        assert early + late == late;
        if |late| > 0 {
          RunExtends(engine, OnReply(engine, sent, late[0]), late[1..]);
        }
      } else {
        assert (early + late)[1..] == early[1..] + late;
        TimeoutGivesPrefix(engine, OnReply(engine, sent, early[0]), early[1..], late);
      }
    }
  }

  /** The ReadProperty-ACK for index `i` of the device's `objectList`. */
  function ElementAck(deviceId: int, i: int, payload: Payload): Reply
  {
    Response(ReadAck("device", deviceId, "objectList", Some(i), payload))
  }

  /** The device's `objectList` is an array of object identifiers. */
  predicate ObjectListIsArray(engine: Engine)
  {
    ("device", "objectList") in engine.datatypes && engine.datatypes[("device", "objectList")].ArrayClass?
  }

  /** A count of 0 ends the walk after the one read of index 0, with an empty list. */
  lemma EmptyObjectList(engine: Engine, deviceId: int, payload: Payload, rest: seq<Reply>)
    requires ObjectListIsArray(engine) && engine.castOutCount(payload) == Ok(0)
    ensures Run(engine, Start, [ElementAck(deviceId, 0, payload)] + rest) == Walk([], [], [], true, [0])
  {
    var replies := [ElementAck(deviceId, 0, payload)] + rest;
    var sent := Start.(queue := [], requested := [0]);
    assert OnReply(engine, sent, replies[0]) == sent.(queue := []);
  }

  /** Each of the `n` element payloads decodes, as the array's subtype, to the matching value. */
  predicate Decodes(engine: Engine, payloads: seq<Payload>, vs: seq<Value>)
    requires ObjectListIsArray(engine)
  {
    |payloads| == |vs|
    && forall j :: 0 <= j < |payloads| ==>
         engine.castOut(payloads[j], engine.datatypes[("device", "objectList")].subtype) == Ok(vs[j])
  }

  /** The replies answer the reads of indices `i, i+1, ..., n` in that order, each echoing its index. */
  predicate AnswersFrom(deviceId: int, replies: seq<Reply>, i: nat, n: nat, payloads: seq<Payload>)
    requires 1 <= i && |payloads| == n
  {
    |replies| >= n + 1 - i
    && forall j :: 0 <= j < n + 1 - i ==> replies[j] == ElementAck(deviceId, i + j, payloads[i + j - 1])
  }

  /** Answers from index `i` on, less the first, are answers from `i + 1` on. */
  lemma AnswersShift(deviceId: int, replies: seq<Reply>, i: nat, n: nat, payloads: seq<Payload>)
    requires 1 <= i <= n && |payloads| == n
    requires AnswersFrom(deviceId, replies, i, n, payloads)
    ensures AnswersFrom(deviceId, replies[1..], i + 1, n, payloads)
  {
    forall j | 0 <= j < n + 1 - (i + 1)
      ensures replies[1..][j] == ElementAck(deviceId, i + 1 + j, payloads[i + 1 + j - 1])
    {
      assert replies[1..][j] == replies[j + 1];
    }
  }

  /** One element read answered by its ACK: the value is appended and the walk goes on. */
  lemma ElementStep(engine: Engine, deviceId: int, s: Walk, payload: Payload, v: Value, replies: seq<Reply>)
    requires ObjectListIsArray(engine)
    requires !s.done && |s.queue| > 0 && s.queue[0] != 0
    requires engine.castOut(payload, engine.datatypes[("device", "objectList")].subtype) == Ok(v)
    requires |replies| > 0 && replies[0] == ElementAck(deviceId, s.queue[0], payload)
    ensures Run(engine, s, replies) ==
              Run(engine, Walk(s.queue[1..], s.results + [v], s.errors, false, s.requested + [s.queue[0]]), replies[1..])
  {
    var sent := s.(queue := s.queue[1..], requested := s.requested + [s.queue[0]]);
    var dt := engine.datatypes[("device", "objectList")];
    assert CastTargetOf(dt, Some(s.queue[0])) == ElementTarget(dt.subtype);
    assert OnReply(engine, sent, replies[0]) == Walk(s.queue[1..], s.results + [v], s.errors, false, s.requested + [s.queue[0]]);
  }

  /** A non-empty range is its first index followed by the rest. */
  lemma RangeCons(lo: int, hi: int)
    requires lo < hi
    ensures Range(lo, hi)[0] == lo && Range(lo, hi)[1..] == Range(lo + 1, hi)
    ensures Range(lo, hi) == [lo] + Range(lo + 1, hi)
  {
    assert Range(lo, hi)[1..] == Range(lo + 1, hi);
  }

  /** The first of the answered element reads: the walk moves on to index `i + 1` with `vs[i - 1]` appended. */
  lemma AnsweredStep(engine: Engine, deviceId: int, s: Walk, i: nat, n: nat,
                     payloads: seq<Payload>, vs: seq<Value>, replies: seq<Reply>)
    requires ObjectListIsArray(engine) && |payloads| == n && Decodes(engine, payloads, vs)
    requires 1 <= i <= n
    requires !s.done && s.queue == Range(i, n + 1)
    requires AnswersFrom(deviceId, replies, i, n, payloads)
    ensures Run(engine, s, replies) ==
              Run(engine, Walk(Range(i + 1, n + 1), s.results + [vs[i - 1]], s.errors, false, s.requested + [i]), replies[1..])
    ensures AnswersFrom(deviceId, replies[1..], i + 1, n, payloads)
  {
    RangeCons(i, n + 1);
    assert replies[0] == ElementAck(deviceId, i, payloads[i - 1]);
    ElementStep(engine, deviceId, s, payloads[i - 1], vs[i - 1], replies);
    AnswersShift(deviceId, replies, i, n, payloads);
  }

  /**
   * The middle of a well-behaved walk: with the indices `i..n` still
   * queued and each read answered in turn, the walk reads them in
   * ascending order, appends the values in that order, and ends without
   * error.
   */
  lemma {:induction false} ReadsInOrder(engine: Engine, deviceId: int, s: Walk, i: nat, n: nat,
                                        payloads: seq<Payload>, vs: seq<Value>, replies: seq<Reply>)
    requires ObjectListIsArray(engine) && |payloads| == n && Decodes(engine, payloads, vs)
    requires 1 <= i <= n + 1
    requires !s.done && s.queue == Range(i, n + 1)
    requires AnswersFrom(deviceId, replies, i, n, payloads)
    ensures Run(engine, s, replies) == Walk([], s.results + vs[i - 1..], s.errors, true, s.requested + Range(i, n + 1))
    decreases n + 1 - i
  {
    if i == n + 1 {
      assert vs[i - 1..] == [];
      assert s.results + [] == s.results && s.requested + [] == s.requested;
    } else {
      AnsweredStep(engine, deviceId, s, i, n, payloads, vs, replies);
      var next := Walk(Range(i + 1, n + 1), s.results + [vs[i - 1]], s.errors, false, s.requested + [i]);
      ReadsInOrder(engine, deviceId, next, i + 1, n, payloads, vs, replies[1..]);
      RangeCons(i, n + 1);
      assert vs[i - 1..][1..] == vs[i..];
      AppendHeadTail(s.results, vs[i - 1..]);
      AppendHeadTail(s.requested, Range(i, n + 1));
    }
  }

  /**
   * A device with `n` objects that answers every read: index 0 first, then
   * indices 1 to n in ascending order, and the list holds the `n` decoded
   * identifiers in index order.
   */
  lemma FullWalk(engine: Engine, deviceId: int, countPayload: Payload, n: nat,
                 payloads: seq<Payload>, vs: seq<Value>, replies: seq<Reply>)
    requires ObjectListIsArray(engine) && engine.castOutCount(countPayload) == Ok(n)
    requires |payloads| == n && Decodes(engine, payloads, vs)
    requires |replies| >= 1 && replies[0] == ElementAck(deviceId, 0, countPayload)
    requires AnswersFrom(deviceId, replies[1..], 1, n, payloads)
    ensures Run(engine, Start, replies) == Walk([], vs, [], true, Range(0, n + 1))
  {
    var sent := Start.(queue := [], requested := [0]);
    var dt := engine.datatypes[("device", "objectList")];
    assert CastTargetOf(dt, Some(0)) == CountTarget;
    var next := OnReply(engine, sent, replies[0]);
    assert next == Walk(Range(1, n + 1), [], [], false, [0]);
    assert Start.queue[1..] == [] && Start.requested + [Start.queue[0]] == [0];
    assert Run(engine, Start, replies) == Run(engine, next, replies[1..]);
    ReadsInOrder(engine, deviceId, next, 1, n, payloads, vs, replies[1..]);
    assert [] + vs[0..] == vs;
    assert [0] + Range(1, n + 1) == Range(0, n + 1);
  }
}
