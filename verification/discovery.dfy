/**
 * Device discovery: `whois` (send a Who-Is, then collect the I-Am records
 * that arrive while it waits, one per device instance) and `iam` (announce
 * the local device). Who-Is and I-Am are the services of ASHRAE 135
 * clause 16.10.
 */
module Discovery {
  import opened Common
  import opened Config
  import opened Bacnet
  import opened Session
  import Mac

  /** An exception that escapes a public operation: `ensure_started` failed. */
  datatype SessionError = StartFailed(error: StartError)

  /**
   * The Who-Is request of `whois`: directed when `dest` is a non-empty
   * string, broadcast otherwise; the instance range only when both limits
   * are given.
   */
  function WhoIsFor(dest: Option<string>, low: Option<int>, high: Option<int>): (r: WhoIsRequest)
    ensures r.destination == GlobalBroadcast <==> dest.None? || dest.value == ""
    ensures r.destination.Station? ==> r.destination.address == dest.value
    ensures r.range.Some? <==> low.Some? && high.Some?
    ensures r.range.Some? ==> r.range.value == (low.value, high.value)
  {
    var destination := if dest.Some? && dest.value != "" then Station(dest.value) else GlobalBroadcast;
    var range := if low.Some? && high.Some? then Some((low.value, high.value)) else None;
    WhoIsRequest(destination, range)
  }

  // ------------------------------------------------ the `seen` dictionary

  /** The device instances of the collected records, in dictionary order. */
  function Instances(seen: seq<DeviceRecord>): (ids: seq<int>)
    ensures |ids| == |seen|
    ensures forall i :: 0 <= i < |seen| ==> ids[i] == seen[i].deviceInstance
  {
    if |seen| == 0 then [] else [seen[0].deviceInstance] + Instances(seen[1..])
  }

  predicate Unique(seen: seq<DeviceRecord>)
  {
    forall i, j :: 0 <= i < j < |seen| ==> seen[i].deviceInstance != seen[j].deviceInstance
  }

  /**
   * `seen[d["device_instance"]] = d` on an insertion-ordered dictionary: an
   * existing key keeps its place and takes the new record, a new key goes
   * last.
   */
  function Upsert(seen: seq<DeviceRecord>, d: DeviceRecord): seq<DeviceRecord>
  {
    if |seen| == 0 then [d]
    else if seen[0].deviceInstance == d.deviceInstance then [d] + seen[1..]
    else [seen[0]] + Upsert(seen[1..], d)
  }

  /** The dictionary after the records `rs` were stored in order, as a list of its values. */
  function Collect(rs: seq<DeviceRecord>): seq<DeviceRecord>
  {
    if |rs| == 0 then [] else Upsert(Collect(rs[..|rs| - 1]), rs[|rs| - 1])
  }

  /** The last record of `rs` for device `id`. */
  function LastWith(rs: seq<DeviceRecord>, id: int): (r: Option<DeviceRecord>)
    ensures r.Some? ==> r.value in rs && r.value.deviceInstance == id
    ensures r.None? <==> forall i :: 0 <= i < |rs| ==> rs[i].deviceInstance != id
  {
    if |rs| == 0 then None
    else if rs[|rs| - 1].deviceInstance == id then Some(rs[|rs| - 1])
    else LastWith(rs[..|rs| - 1], id)
  }

  /** The distinct device instances of `rs`, in the order they first appear. */
  function FirstArrivals(rs: seq<DeviceRecord>): seq<int>
  {
    if |rs| == 0 then []
    else
      var ids := FirstArrivals(rs[..|rs| - 1]);
      if rs[|rs| - 1].deviceInstance in ids then ids else ids + [rs[|rs| - 1].deviceInstance]
  }

  lemma UniqueTail(seen: seq<DeviceRecord>)
    requires |seen| > 0 && Unique(seen)
    ensures Unique(seen[1..])
  {
    var tail := seen[1..];
    forall i, j | 0 <= i < j < |tail| ensures tail[i].deviceInstance != tail[j].deviceInstance {
      assert tail[i] == seen[i + 1] && tail[j] == seen[j + 1];
    }
  }

  /** Storing a record keeps it and the other devices' records, and nothing else. */
  lemma {:induction false} UpsertMembers(seen: seq<DeviceRecord>, d: DeviceRecord)
    requires Unique(seen)
    ensures d in Upsert(seen, d)
    ensures forall e :: e in Upsert(seen, d) ==> e == d || (e in seen && e.deviceInstance != d.deviceInstance)
    ensures forall e :: e in seen && e.deviceInstance != d.deviceInstance ==> e in Upsert(seen, d)
  {
    if |seen| > 0 {
      var u := Upsert(seen, d);
      var tail := seen[1..];
      assert seen == [seen[0]] + tail;
      assert forall e :: e in tail ==> e in seen;
      UniqueTail(seen);
      if seen[0].deviceInstance != d.deviceInstance {
        UpsertMembers(tail, d);
        assert u == [seen[0]] + Upsert(tail, d);
      } else {
        assert u == [d] + tail;
        forall e | e in tail ensures e.deviceInstance != d.deviceInstance {
          var k :| 0 <= k < |tail| && tail[k] == e;
          assert seen[k + 1] == e;
        }
      }
    }
  }

  /** A key already present keeps its place; a new key is added last. */
  lemma {:induction false} UpsertInstances(seen: seq<DeviceRecord>, d: DeviceRecord)
    ensures Instances(Upsert(seen, d)) ==
              if d.deviceInstance in Instances(seen) then Instances(seen) else Instances(seen) + [d.deviceInstance]
  {
    if |seen| > 0 {
      assert Instances(seen) == [seen[0].deviceInstance] + Instances(seen[1..]);
      if seen[0].deviceInstance != d.deviceInstance {
        UpsertInstances(seen[1..], d);
        assert Upsert(seen, d) == [seen[0]] + Upsert(seen[1..], d);
        assert Instances(Upsert(seen, d)) == [seen[0].deviceInstance] + Instances(Upsert(seen[1..], d));
      } else {
        assert Upsert(seen, d) == [d] + seen[1..];
        assert Instances(Upsert(seen, d)) == [d.deviceInstance] + Instances(seen[1..]);
      }
    }
  }

  /** Storing a record keeps the keys distinct. */
  lemma UpsertUnique(seen: seq<DeviceRecord>, d: DeviceRecord)
    requires Unique(seen)
    ensures Unique(Upsert(seen, d))
  {
    UpsertInstances(seen, d);
    var u := Upsert(seen, d);
    var ids := Instances(seen);
    assert forall i, j :: 0 <= i < j < |ids| ==> ids[i] != ids[j];
    forall i, j | 0 <= i < j < |u| ensures u[i].deviceInstance != u[j].deviceInstance {
      assert Instances(u)[i] == u[i].deviceInstance && Instances(u)[j] == u[j].deviceInstance;
    }
  }

  /**
   * What `whois` returns for the records `rs` received in that order: one
   * record per device instance, every instance received is there, each is
   * the last record received for it, and instances keep the order in which
   * they first arrived.
   */
  lemma CollectFacts(rs: seq<DeviceRecord>)
    ensures Unique(Collect(rs))
    ensures forall i :: 0 <= i < |rs| ==> rs[i].deviceInstance in Instances(Collect(rs))
    ensures forall e :: e in Collect(rs) ==> LastWith(rs, e.deviceInstance) == Some(e)
    ensures Instances(Collect(rs)) == FirstArrivals(rs)
  {
    CollectUnique(rs);
    CollectCovers(rs);
    CollectLast(rs);
    CollectOrder(rs);
  }

  lemma {:induction false} CollectUnique(rs: seq<DeviceRecord>)
    ensures Unique(Collect(rs))
  {
    if |rs| > 0 {
      CollectUnique(rs[..|rs| - 1]);
      UpsertUnique(Collect(rs[..|rs| - 1]), rs[|rs| - 1]);
    }
  }

  lemma {:induction false} CollectOrder(rs: seq<DeviceRecord>)
    ensures Instances(Collect(rs)) == FirstArrivals(rs)
  {
    if |rs| > 0 {
      CollectOrder(rs[..|rs| - 1]);
      UpsertInstances(Collect(rs[..|rs| - 1]), rs[|rs| - 1]);
    }
  }

  lemma {:induction false} CollectCovers(rs: seq<DeviceRecord>)
    ensures forall i :: 0 <= i < |rs| ==> rs[i].deviceInstance in Instances(Collect(rs))
  {
    if |rs| > 0 {
      var prefix := rs[..|rs| - 1];
      var d := rs[|rs| - 1];
      CollectCovers(prefix);
      UpsertInstances(Collect(prefix), d);
      var ids := Instances(Collect(rs));
      assert Instances(Collect(prefix)) <= ids;
      forall i | 0 <= i < |rs| ensures rs[i].deviceInstance in ids {
        if i < |rs| - 1 {
          assert prefix[i] == rs[i];
        }
      }
    }
  }

  lemma {:induction false} CollectLast(rs: seq<DeviceRecord>)
    ensures forall e :: e in Collect(rs) ==> LastWith(rs, e.deviceInstance) == Some(e)
  {
    if |rs| > 0 {
      var prefix := rs[..|rs| - 1];
      var d := rs[|rs| - 1];
      CollectLast(prefix);
      CollectUnique(prefix);
      UpsertMembers(Collect(prefix), d);
      forall e | e in Collect(rs) ensures LastWith(rs, e.deviceInstance) == Some(e) {
        if e != d {
          assert LastWith(rs, e.deviceInstance) == LastWith(prefix, e.deviceInstance);
        }
      }
    }
  }

  // ------------------------------------------------------- whois and iam

  /** The records the I-Am messages of `window` put on the queue, in arrival order. */
  function Received(window: seq<Unconfirmed>): (rs: seq<DeviceRecord>)
    ensures |rs| <= |window|
  {
    if |window| == 0 then [] else Received(window[..|window| - 1]) + Queued(window[|window| - 1])
  }

  /** The APDUs of `window` that `indication` passes on. */
  function Passed(window: seq<Unconfirmed>): seq<Unconfirmed>
  {
    if |window| == 0 then []
    else Passed(window[..|window| - 1]) + PassedOn(window[|window| - 1])
  }

  /** What `indication` passes on of one APDU. */
  function PassedOn(apdu: Unconfirmed): seq<Unconfirmed>
  {
    if Forwards(apdu) then [apdu] else []
  }

  /** The collection after one APDU: the record it queued, if any, stored under its instance. */
  function Stored(seen: seq<DeviceRecord>, apdu: Unconfirmed): seq<DeviceRecord>
  {
    if |Queued(apdu)| == 0 then seen else Upsert(seen, Queued(apdu)[0])
  }

  lemma WindowStep(window: seq<Unconfirmed>, k: nat)
    requires k < |window|
    ensures Received(window[..k + 1]) == Received(window[..k]) + Queued(window[k])
    ensures Passed(window[..k + 1]) == Passed(window[..k]) + PassedOn(window[k])
  {
    assert window[..k + 1][..k] == window[..k];
  }

  lemma CollectAppend(rs: seq<DeviceRecord>, d: DeviceRecord)
    ensures Collect(rs + [d]) == Upsert(Collect(rs), d)
  {
    assert (rs + [d])[..|rs|] == rs;
  }

  /** What one more APDU of the window adds to the collection and to what was passed on. */
  lemma CollectStep(window: seq<Unconfirmed>, k: nat)
    requires k < |window|
    ensures Collect(Received(window[..k + 1])) == Stored(Collect(Received(window[..k])), window[k])
    ensures Passed(window[..k + 1]) == Passed(window[..k]) + PassedOn(window[k])
  {
    WindowStep(window, k);
    var rs := Received(window[..k]);
    if |Queued(window[k])| > 0 {
      assert Queued(window[k]) == [Queued(window[k])[0]];
      CollectAppend(rs, Queued(window[k])[0]);
    } else {
      assert rs + Queued(window[k]) == rs;
    }
  }

  /**
   * The collection loop of `whois`: each APDU of the window is delivered to
   * `indication`, and the record it queues (if any) is taken off the queue
   * and stored under its device instance.
   */
  method CollectWindow(app: MstpApp, window: seq<Unconfirmed>) returns (seen: seq<DeviceRecord>)
    requires app.iamQueue == []
    modifies app
    ensures seen == Collect(Received(window))
    ensures app.iamQueue == [] && app.sent == old(app.sent)
    ensures app.forwarded == old(app.forwarded) + Passed(window)
  {
    seen := [];
    var k := 0;
    while k < |window|
      invariant 0 <= k <= |window|
      invariant app.iamQueue == [] && app.sent == old(app.sent)
      invariant app.forwarded == old(app.forwarded) + Passed(window[..k])
      invariant seen == Collect(Received(window[..k]))
    {
      CollectStep(window, k);
      AppendAssoc(old(app.forwarded), Passed(window[..k]), PassedOn(window[k]));
      seen := Deliver(app, window[k], seen);
      k := k + 1;
    }
    assert window[..|window|] == window;
  }

  /**
   * One pass of that loop: the APDU goes to `indication`, and the record it
   * queued, if any, is taken off the queue and stored.
   */
  method Deliver(app: MstpApp, apdu: Unconfirmed, seen: seq<DeviceRecord>) returns (stored: seq<DeviceRecord>)
    requires app.iamQueue == []
    modifies app
    ensures stored == Stored(seen, apdu)
    ensures app.iamQueue == [] && app.sent == old(app.sent)
    ensures app.forwarded == old(app.forwarded) + PassedOn(apdu)
  {
    app.Indication(apdu);
    stored := seen;
    if |app.iamQueue| > 0 {
      var d := app.Get();
      stored := Upsert(seen, d);
    }
  }

  /**
   * `whois(ini_path, timeout, dest, low_limit, high_limit)`: `window` is the
   * unconfirmed traffic delivered to the application before the deadline,
   * in order.
   */
  method Whois(core: Core, path: string, file: Option<Ini>, dest: Option<string>, low: Option<int>, high: Option<int>,
               window: seq<Unconfirmed>)
    returns (r: Result<seq<DeviceRecord>, SessionError>)
    requires core.Valid()
    modifies core, core.app
    ensures core.Valid()
    ensures r.Err? <==> !old(core.started) && StartUp(path, file, core.refuses).Err?
    ensures r.Err? ==> r == Err(StartFailed(StartUp(path, file, core.refuses).error)) && !core.started
    ensures r.Ok? ==> r.value == Collect(Received(window)) && core.started && core.app.iamQueue == []
    ensures r.Ok? && old(core.started) ==>
              core.app == old(core.app)
              && core.app.sent == old(core.app.sent) + [SendWhoIs(WhoIsFor(dest, low, high))]
              && core.app.forwarded == old(core.app.forwarded) + Passed(window)
    ensures r.Ok? && !old(core.started) ==>
              fresh(core.app)
              && core.app.sent == [SendWhoIs(WhoIsFor(dest, low, high))]
              && core.app.forwarded == Passed(window)
  {
    var started := StartedApp(core, path, file);
    if started.Err? {
      return Err(StartFailed(started.error));
    }
    var app := started.value;
    app.Drain();
    var req := WhoIsFor(dest, low, high);
    app.Request(SendWhoIs(req));
    var seen := CollectWindow(app, window);
    return Ok(seen);
  }

  /** The I-Am request `iam` broadcasts for the local device. */
  function IAmFor(dev: DeviceSettings): (r: IAmRequest)
    ensures r.destination == GlobalBroadcast && r.deviceInstance == dev.objectIdentifier
  {
    IAmRequest(GlobalBroadcast, dev.objectIdentifier, dev.maxApduLengthAccepted,
               dev.segmentationSupported, dev.vendorIdentifier)
  }

  /** An I-Am request as a peer running this code receives it from `source`. */
  function Delivered(req: IAmRequest, source: Option<Mac.Source>): Unconfirmed
  {
    IAm(Some(("device", req.deviceInstance)), Some(req.maxApdu), Some(req.segmentation), Some(req.vendorId), source)
  }

  /**
   * The I-Am this device sends is captured by a peer running the same code
   * as a record carrying exactly the announced identity.
   */
  lemma IAmRoundTrip(dev: DeviceSettings, source: Option<Mac.Source>)
    ensures CaptureOf(Delivered(IAmFor(dev), source)) ==
              Captured(DeviceRecord(dev.objectIdentifier, dev.maxApduLengthAccepted, dev.segmentationSupported,
                                    dev.vendorIdentifier, Mac.ExtractMac(source)))
    ensures Forwards(Delivered(IAmFor(dev), source))
  {
  }

  /** `iam(ini_path)`: queue an I-Am for the local device and report `{"sent": True}`. */
  method Iam(core: Core, path: string, file: Option<Ini>) returns (r: Result<bool, SessionError>)
    requires core.Valid()
    modifies core, core.app
    ensures core.Valid()
    ensures r.Err? <==> !old(core.started) && StartUp(path, file, core.refuses).Err?
    ensures r.Err? ==> r == Err(StartFailed(StartUp(path, file, core.refuses).error)) && !core.started
    ensures r.Ok? ==> r.value && core.started
    ensures r.Ok? && old(core.started) ==>
              core.app == old(core.app) && core.app.sent == old(core.app.sent) + [SendIAm(IAmFor(core.app.device))]
    ensures r.Ok? && !old(core.started) ==>
              fresh(core.app) && core.app.sent == [SendIAm(IAmFor(core.app.device))]
  {
    var started := StartedApp(core, path, file);
    if started.Err? {
      return Err(StartFailed(started.error));
    }
    var app := started.value;
    app.Request(SendIAm(IAmFor(app.device)));
    return Ok(true);
  }
}
