/** The body of the exporter's `connected` handler in `getMetrics`: one
    device session that authenticates, asks the device for its state, its
    device list, each device's realtime data and the DC data of channel 1,
    turns every numeric answer into a metric fragment, disconnects and
    joins the fragments with newlines.

    The device is not a live client here: `Answers` holds what the device
    answers to each query, and a failed query (an exception in the source)
    is an `Err` answer. The host's value semantics (`isNaN`, template
    interpolation) and the `slug` library are the parameters in `Host`. */
module Collection {
  import opened Text
  import opened Exposition

  datatype Result<T> = Ok(value: T) | Err(cause: string)

  datatype Outcome = Pass | Fail(cause: string)

  /** What the model takes from the host rather than defines: the name
      sanitiser, JavaScript's `isNaN` on a telemetry value, and the text a
      value gives in a template literal. */
  datatype Host<!V> = Host(slug: string -> string, isNaN: V -> bool, show: V -> string)

  predicate IsNumeric<V>(h: Host<V>, v: V)
  {
    !h.isNaN(v)
  }

  /** The device state answer: the alarm and fault totals. */
  datatype DeviceState<V> = DeviceState(totalAlarm: V, totalFault: V)

  /** One entry of the device list, each field as the text it gives in a
      label. */
  datatype Device = Device(id: string, devType: string, devSn: string, devName: string, devModel: string, portName: string)

  /** One realtime reading of a device. */
  datatype RealtimeItem<V> = RealtimeItem(dataName: string, dataValue: V)

  /** One DC reading of a channel. */
  datatype DcItem<V> = DcItem(name: string, voltage: V, current: V)

  /** The device's answer to every call one session can make: realtime
      data is asked for by device id, DC data by channel, and the closing
      `disconnect` may throw too. */
  datatype Answers<V> = Answers(
    authenticate: Outcome,
    state: Result<DeviceState<V>>,
    deviceList: Result<seq<Device>>,
    realtimeData: string -> Result<seq<RealtimeItem<V>>>,
    dcData: int -> Result<seq<DcItem<V>>>,
    disconnect: Outcome)

  /** The client calls of a session, in the order they are made. */
  datatype Call =
    | Authenticate
    | GetState
    | GetDeviceList
    | GetDeviceRealtimeData(deviceId: string)
    | GetDeviceDcData(channel: int)
    | Disconnect

  /** The only DC channel the session asks for. */
  const DcChannel: int := 1

  /** The kind of every exported metric. */
  const Gauge: string := "gauge"

  // ---------------------------------------------------------------------
  // Fragments

  function IpLabels(ip: string): seq<Label>
  {
    [Label("ip", ip)]
  }

  function DeviceLabels(ip: string, d: Device): seq<Label>
  {
    [Label("ip", ip), Label("device_id", d.id), Label("device_type", d.devType),
     Label("device_sn", d.devSn), Label("device_name", d.devName),
     Label("device_model", d.devModel), Label("device_port_name", d.portName)]
  }

  /** The DC labels carry the number 1 as the device id, whatever the
      devices are. */
  function DcLabels(ip: string): seq<Label>
  {
    [Label("ip", ip), Label("device_id", "1")]
  }

  function StateFragments<V>(h: Host<V>, ip: string, st: DeviceState<V>): seq<string>
  {
    [FormatMetric(h.slug, "state_total_alarm", Gauge, IpLabels(ip), h.show(st.totalAlarm)),
     FormatMetric(h.slug, "state_total_fault", Gauge, IpLabels(ip), h.show(st.totalFault))]
  }

  function RealtimeFragment<V>(h: Host<V>, ip: string, d: Device, item: RealtimeItem<V>): string
  {
    FormatMetric(h.slug, "realtime_data_" + item.dataName, Gauge, DeviceLabels(ip, d), h.show(item.dataValue))
  }

  /** One fragment per numeric item of device `d`, in item order. */
  function RealtimeFragments<V>(h: Host<V>, ip: string, d: Device, items: seq<RealtimeItem<V>>): seq<string>
  {
    if items == [] then []
    else
      (if IsNumeric(h, items[0].dataValue) then [RealtimeFragment(h, ip, d, items[0])] else [])
      + RealtimeFragments(h, ip, d, items[1..])
  }

  /** The realtime fragments of every device in list order, or the cause
      of the first realtime query that fails. */
  function DeviceFragments<V>(h: Host<V>, ip: string, devices: seq<Device>,
                              realtimeData: string -> Result<seq<RealtimeItem<V>>>): Result<seq<string>>
  {
    if devices == [] then Ok([])
    else match realtimeData(devices[0].id)
      case Err(e) => Err(e)
      case Ok(items) =>
        match DeviceFragments(h, ip, devices[1..], realtimeData)
        case Err(e) => Err(e)
        case Ok(rest) => Ok(RealtimeFragments(h, ip, devices[0], items) + rest)
  }

  function DcVoltageFragment<V>(h: Host<V>, ip: string, item: DcItem<V>): string
  {
    FormatMetric(h.slug, "dc_data_" + item.name + "_voltage", Gauge, DcLabels(ip), h.show(item.voltage))
  }

  function DcCurrentFragment<V>(h: Host<V>, ip: string, item: DcItem<V>): string
  {
    FormatMetric(h.slug, "dc_data_" + item.name + "_current", Gauge, DcLabels(ip), h.show(item.current))
  }

  /** The voltage fragment if the voltage is numeric, then the current
      fragment if the current is numeric. */
  function DcItemFragments<V>(h: Host<V>, ip: string, item: DcItem<V>): seq<string>
  {
    (if IsNumeric(h, item.voltage) then [DcVoltageFragment(h, ip, item)] else [])
    + (if IsNumeric(h, item.current) then [DcCurrentFragment(h, ip, item)] else [])
  }

  function DcFragments<V>(h: Host<V>, ip: string, items: seq<DcItem<V>>): seq<string>
  {
    if items == [] then [] else DcItemFragments(h, ip, items[0]) + DcFragments(h, ip, items[1..])
  }

  /** Every fragment of one session in order, or the cause of the first
      query that fails. */
  function Fragments<V>(h: Host<V>, ip: string, a: Answers<V>): Result<seq<string>>
  {
    if a.authenticate.Fail? then Err(a.authenticate.cause)
    else if a.state.Err? then Err(a.state.cause)
    else if a.deviceList.Err? then Err(a.deviceList.cause)
    else
      var realtime := DeviceFragments(h, ip, a.deviceList.value, a.realtimeData);
      if realtime.Err? then Err(realtime.cause)
      else if a.dcData(DcChannel).Err? then Err(a.dcData(DcChannel).cause)
      else Ok(StateFragments(h, ip, a.state.value) + realtime.value + DcFragments(h, ip, a.dcData(DcChannel).value))
  }

  /** The outcome of one session: the document, or the failure that ended
      the handler before it was produced; a throwing `disconnect` comes
      before the join and so also leaves no document. */
  function Collect<V>(h: Host<V>, ip: string, a: Answers<V>): Result<string>
  {
    match Fragments(h, ip, a)
    case Err(e) => Err(e)
    case Ok(fs) => if a.disconnect.Fail? then Err(a.disconnect.cause) else Ok(Join(fs, '\n'))
  }

  // ---------------------------------------------------------------------
  // Calls

  predicate AllRealtimeOk<V>(devices: seq<Device>, realtimeData: string -> Result<seq<RealtimeItem<V>>>)
  {
    forall k :: 0 <= k < |devices| ==> realtimeData(devices[k].id).Ok?
  }

  /** Every query of a session, from `authenticate` to the DC data, is
      answered without failure. */
  predicate AllQueried<V>(a: Answers<V>)
  {
    && a.authenticate.Pass?
    && a.state.Ok?
    && a.deviceList.Ok?
    && AllRealtimeOk(a.deviceList.value, a.realtimeData)
    && a.dcData(DcChannel).Ok?
  }

  /** Every call of a session, the closing `disconnect` included, succeeds. */
  predicate AllAnswered<V>(a: Answers<V>)
  {
    AllQueried(a) && a.disconnect.Pass?
  }

  /** The realtime queries, one per device in list order, up to and
      including the first that fails. */
  function DeviceCalls<V>(devices: seq<Device>, realtimeData: string -> Result<seq<RealtimeItem<V>>>): seq<Call>
  {
    if devices == [] then []
    else
      [GetDeviceRealtimeData(devices[0].id)]
      + (if realtimeData(devices[0].id).Err? then [] else DeviceCalls(devices[1..], realtimeData))
  }

  /** The calls of one session: each query in turn, stopping after the
      first that fails; `Disconnect` only when all queries have been
      answered. */
  function SessionCalls<V>(a: Answers<V>): seq<Call>
  {
    if a.authenticate.Fail? then [Authenticate]
    else if a.state.Err? then [Authenticate, GetState]
    else if a.deviceList.Err? then [Authenticate, GetState, GetDeviceList]
    else
      var queried := [Authenticate, GetState, GetDeviceList] + DeviceCalls(a.deviceList.value, a.realtimeData);
      if !AllRealtimeOk(a.deviceList.value, a.realtimeData) then queried
      else if a.dcData(DcChannel).Err? then queried + [GetDeviceDcData(DcChannel)]
      else queried + [GetDeviceDcData(DcChannel), Disconnect]
  }

  /** How the device answers one call. */
  function Answer<V>(a: Answers<V>, c: Call): Outcome
  {
    match c
    case Authenticate => a.authenticate
    case GetState => if a.state.Ok? then Pass else Fail(a.state.cause)
    case GetDeviceList => if a.deviceList.Ok? then Pass else Fail(a.deviceList.cause)
    case GetDeviceRealtimeData(id) =>
      if a.realtimeData(id).Ok? then Pass else Fail(a.realtimeData(id).cause)
    case GetDeviceDcData(ch) => if a.dcData(ch).Ok? then Pass else Fail(a.dcData(ch).cause)
    case Disconnect => a.disconnect
  }

  // ---------------------------------------------------------------------
  // The session

  /** The `connected` handler: makes the calls of `SessionCalls(a)` in
      order, pushes each fragment onto `lines` as its answer arrives, and
      joins the lines only after a `Disconnect` that does not throw. */
  method CollectMetrics<V>(h: Host<V>, ip: string, a: Answers<V>) returns (result: Result<string>, calls: seq<Call>)
    ensures result == Collect(h, ip, a)
    ensures calls == SessionCalls(a)
  {
    calls := [Authenticate];
    if a.authenticate.Fail? {
      return Err(a.authenticate.cause), calls;
    }

    var lines: seq<string> := [];

    calls := calls + [GetState];
    assert calls == [Authenticate, GetState];
    if a.state.Err? {
      return Err(a.state.cause), calls;
    }
    var state := a.state.value;
    lines := lines + [FormatMetric(h.slug, "state_total_alarm", Gauge, IpLabels(ip), h.show(state.totalAlarm))];
    lines := lines + [FormatMetric(h.slug, "state_total_fault", Gauge, IpLabels(ip), h.show(state.totalFault))];
    assert lines == StateFragments(h, ip, state);

    calls := calls + [GetDeviceList];
    assert calls == [Authenticate, GetState, GetDeviceList];
    if a.deviceList.Err? {
      return Err(a.deviceList.cause), calls;
    }
    var devices := a.deviceList.value;
    var realtime, deviceCalls := PushDeviceLines(h, ip, devices, a.realtimeData, lines);
    calls := calls + deviceCalls;
    DeviceFragmentsOk(h, ip, devices, a.realtimeData);
    if realtime.Err? {
      return Err(realtime.cause), calls;
    }
    lines := realtime.value;

    calls := calls + [GetDeviceDcData(DcChannel)];
    var dcResponse := a.dcData(DcChannel);
    if dcResponse.Err? {
      return Err(dcResponse.cause), calls;
    }
    lines := PushDcLines(h, ip, dcResponse.value, lines);

    calls := calls + [Disconnect];
    if a.disconnect.Fail? {
      return Err(a.disconnect.cause), calls;
    }
    result := Ok(Join(lines, '\n'));
  }

  /** The loop over the device list: asks each device for its realtime
      data in list order and pushes its fragments; the first failing
      query ends the loop with its cause. */
  method PushDeviceLines<V>(h: Host<V>, ip: string, devices: seq<Device>,
                            realtimeData: string -> Result<seq<RealtimeItem<V>>>, lines: seq<string>)
    returns (pushed: Result<seq<string>>, calls: seq<Call>)
    ensures DeviceFragments(h, ip, devices, realtimeData).Err? ==>
              pushed == Err(DeviceFragments(h, ip, devices, realtimeData).cause)
    ensures DeviceFragments(h, ip, devices, realtimeData).Ok? ==>
              pushed == Ok(lines + DeviceFragments(h, ip, devices, realtimeData).value)
    ensures calls == DeviceCalls(devices, realtimeData)
  {
    var acc := lines;
    calls := [];
    ghost var done: seq<string> := [];
    assert devices[..0] == [];
    for i := 0 to |devices|
      invariant AllRealtimeOk(devices[..i], realtimeData)
      invariant DeviceFragments(h, ip, devices[..i], realtimeData) == Ok(done)
      invariant acc == lines + done
      invariant calls == DeviceCalls(devices[..i], realtimeData)
    {
      var device := devices[i];
      calls := calls + [GetDeviceRealtimeData(device.id)];
      DeviceLoopStep(h, ip, devices, i, realtimeData);
      var response := realtimeData(device.id);
      if response.Err? {
        return Err(response.cause), calls;
      }
      ghost var added := RealtimeFragments(h, ip, device, response.value);
      acc := PushRealtimeLines(h, ip, device, response.value, acc);
      assert acc == lines + (done + added) by {
        AppendAssociates(lines, done, added);
      }
      done := done + added;
    }
    assert devices[..|devices|] == devices;
    pushed := Ok(acc);
  }

  /** The inner loop over one device's realtime items: pushes a fragment
      for each numeric item, in item order. */
  method PushRealtimeLines<V>(h: Host<V>, ip: string, device: Device, items: seq<RealtimeItem<V>>, lines: seq<string>)
    returns (pushed: seq<string>)
    ensures pushed == lines + RealtimeFragments(h, ip, device, items)
  {
    pushed := lines;
    for j := 0 to |items|
      invariant pushed == lines + RealtimeFragments(h, ip, device, items[..j])
    {
      var item := items[j];
      ghost var before := pushed;
      if !h.isNaN(item.dataValue) {
        pushed := pushed + [FormatMetric(h.slug, "realtime_data_" + item.dataName, Gauge, DeviceLabels(ip, device), h.show(item.dataValue))];
      }
      ghost var added := if IsNumeric(h, item.dataValue) then [RealtimeFragment(h, ip, device, item)] else [];
      assert pushed == before + added;
      RealtimeFragmentsAppend(h, ip, device, items[..j], item);
      AppendAssociates(lines, RealtimeFragments(h, ip, device, items[..j]), added);
      assert items[..j + 1] == items[..j] + [item];
    }
    assert items[..|items|] == items;
  }

  /** The loop over the DC items: for each, a voltage fragment if the
      voltage is numeric, then a current fragment if the current is. */
  method PushDcLines<V>(h: Host<V>, ip: string, items: seq<DcItem<V>>, lines: seq<string>)
    returns (pushed: seq<string>)
    ensures pushed == lines + DcFragments(h, ip, items)
  {
    pushed := lines;
    for k := 0 to |items|
      invariant pushed == lines + DcFragments(h, ip, items[..k])
    {
      var item := items[k];
      ghost var before := pushed;
      var metricName := "dc_data_" + item.name;
      if !h.isNaN(item.voltage) {
        pushed := pushed + [FormatMetric(h.slug, metricName + "_voltage", Gauge, DcLabels(ip), h.show(item.voltage))];
      }
      if !h.isNaN(item.current) {
        pushed := pushed + [FormatMetric(h.slug, metricName + "_current", Gauge, DcLabels(ip), h.show(item.current))];
      }
      assert pushed == before + DcItemFragments(h, ip, item);
      DcFragmentsAppend(h, ip, items[..k], item);
      AppendAssociates(lines, DcFragments(h, ip, items[..k]), DcItemFragments(h, ip, item));
      assert items[..k + 1] == items[..k] + [item];
    }
    assert items[..|items|] == items;
  }

  // ---------------------------------------------------------------------
  // Appending one more device or item

  lemma {:induction false} RealtimeFragmentsAppend<V>(h: Host<V>, ip: string, d: Device, items: seq<RealtimeItem<V>>, item: RealtimeItem<V>)
    ensures RealtimeFragments(h, ip, d, items + [item])
         == RealtimeFragments(h, ip, d, items)
            + (if IsNumeric(h, item.dataValue) then [RealtimeFragment(h, ip, d, item)] else [])
  {
    if items == [] {
      assert items + [item] == [item] && [item][1..] == [];
    } else {
      assert (items + [item])[1..] == items[1..] + [item];
      RealtimeFragmentsAppend(h, ip, d, items[1..], item);
    }
  }

  lemma {:induction false} DcFragmentsAppend<V>(h: Host<V>, ip: string, items: seq<DcItem<V>>, item: DcItem<V>)
    ensures DcFragments(h, ip, items + [item]) == DcFragments(h, ip, items) + DcItemFragments(h, ip, item)
  {
    if items == [] {
      assert items + [item] == [item] && [item][1..] == [];
    } else {
      assert (items + [item])[1..] == items[1..] + [item];
      DcFragmentsAppend(h, ip, items[1..], item);
    }
  }

  /** One more device: its fragments follow those of the devices before
      it, unless some realtime query fails first. */
  lemma {:induction false} DeviceFragmentsAppend<V>(h: Host<V>, ip: string, devices: seq<Device>, d: Device,
                                                  realtimeData: string -> Result<seq<RealtimeItem<V>>>)
    ensures DeviceFragments(h, ip, devices + [d], realtimeData)
         == match DeviceFragments(h, ip, devices, realtimeData)
            case Err(e) => Err(e)
            case Ok(fs) =>
              match realtimeData(d.id)
              case Err(e) => Err(e)
              case Ok(items) => Ok(fs + RealtimeFragments(h, ip, d, items))
  {
    if devices == [] {
      assert devices + [d] == [d] && [d][1..] == [];
      if realtimeData(d.id).Ok? {
        var f := RealtimeFragments(h, ip, d, realtimeData(d.id).value);
        assert f + [] == [] + f;
      }
    } else {
      assert (devices + [d])[1..] == devices[1..] + [d];
      DeviceFragmentsAppend(h, ip, devices[1..], d, realtimeData);
      match (realtimeData(devices[0].id), DeviceFragments(h, ip, devices[1..], realtimeData), realtimeData(d.id))
      case (Ok(first), Ok(rest), Ok(items)) =>
        AppendAssociates(RealtimeFragments(h, ip, devices[0], first), rest, RealtimeFragments(h, ip, d, items));
      case _ =>
    }
  }

  lemma {:induction false} DeviceCallsAppend<V>(devices: seq<Device>, d: Device, realtimeData: string -> Result<seq<RealtimeItem<V>>>)
    requires AllRealtimeOk(devices, realtimeData)
    ensures DeviceCalls(devices + [d], realtimeData) == DeviceCalls(devices, realtimeData) + [GetDeviceRealtimeData(d.id)]
  {
    if devices == [] {
      assert devices + [d] == [d] && [d][1..] == [];
    } else {
      assert (devices + [d])[1..] == devices[1..] + [d];
      assert realtimeData(devices[0].id).Ok?;
      assert AllRealtimeOk(devices[1..], realtimeData) by {
        forall k | 0 <= k < |devices| - 1
          ensures realtimeData(devices[1..][k].id).Ok?
        {
          assert devices[1..][k] == devices[k + 1];
        }
      }
      DeviceCallsAppend(devices[1..], d, realtimeData);
    }
  }

  /** One turn of the device loop, after the devices before `i` have all
      been answered: device `i` either extends the fragments and calls by
      its own, or its failure is the outcome of the whole loop. */
  lemma DeviceLoopStep<V>(h: Host<V>, ip: string, devices: seq<Device>, i: nat,
                          realtimeData: string -> Result<seq<RealtimeItem<V>>>)
    requires i < |devices|
    requires AllRealtimeOk(devices[..i], realtimeData)
    requires DeviceFragments(h, ip, devices[..i], realtimeData).Ok?
    ensures var d := devices[i];
      realtimeData(d.id).Ok? ==>
        && AllRealtimeOk(devices[..i + 1], realtimeData)
        && DeviceFragments(h, ip, devices[..i + 1], realtimeData)
           == Ok(DeviceFragments(h, ip, devices[..i], realtimeData).value + RealtimeFragments(h, ip, d, realtimeData(d.id).value))
        && DeviceCalls(devices[..i + 1], realtimeData) == DeviceCalls(devices[..i], realtimeData) + [GetDeviceRealtimeData(d.id)]
    ensures var d := devices[i];
      realtimeData(d.id).Err? ==>
        && DeviceFragments(h, ip, devices, realtimeData) == Err(realtimeData(d.id).cause)
        && DeviceCalls(devices, realtimeData) == DeviceCalls(devices[..i], realtimeData) + [GetDeviceRealtimeData(d.id)]
  {
    var d := devices[i];
    assert devices[..i + 1] == devices[..i] + [d];
    DeviceFragmentsAppend(h, ip, devices[..i], d, realtimeData);
    DeviceCallsAppend(devices[..i], d, realtimeData);
    if realtimeData(d.id).Err? {
      DeviceFailureStops(h, ip, devices, i, realtimeData);
    }
  }

  /** The device loop produces fragments exactly when every realtime
      query is answered. */
  lemma {:induction false} DeviceFragmentsOk<V>(h: Host<V>, ip: string, devices: seq<Device>,
                                               realtimeData: string -> Result<seq<RealtimeItem<V>>>)
    ensures DeviceFragments(h, ip, devices, realtimeData).Ok? <==> AllRealtimeOk(devices, realtimeData)
  {
    if devices != [] {
      DeviceFragmentsOk(h, ip, devices[1..], realtimeData);
      AllRealtimeOkSplit(devices, realtimeData);
    }
  }

  lemma AllRealtimeOkSplit<V>(devices: seq<Device>, realtimeData: string -> Result<seq<RealtimeItem<V>>>)
    requires devices != []
    ensures AllRealtimeOk(devices, realtimeData)
        <==> realtimeData(devices[0].id).Ok? && AllRealtimeOk(devices[1..], realtimeData)
  {
    if realtimeData(devices[0].id).Ok? && AllRealtimeOk(devices[1..], realtimeData) {
      forall k | 0 <= k < |devices|
        ensures realtimeData(devices[k].id).Ok?
      {
        if k > 0 {
          assert devices[k] == devices[1..][k - 1];
        }
      }
    }
    if AllRealtimeOk(devices, realtimeData) {
      var rest := devices[1..];
      forall k | 0 <= k < |rest|
        ensures realtimeData(rest[k].id).Ok?
      {
        assert rest[k] == devices[k + 1];
      }
    }
  }

  /** The first failing realtime query ends the device loop: its cause is
      the outcome and no later device is asked. */
  lemma {:induction false} DeviceFailureStops<V>(h: Host<V>, ip: string, devices: seq<Device>, i: nat,
                                               realtimeData: string -> Result<seq<RealtimeItem<V>>>)
    requires i < |devices|
    requires AllRealtimeOk(devices[..i], realtimeData)
    requires realtimeData(devices[i].id).Err?
    ensures DeviceFragments(h, ip, devices, realtimeData) == Err(realtimeData(devices[i].id).cause)
    ensures DeviceCalls(devices, realtimeData) == DeviceCalls(devices[..i + 1], realtimeData)
  {
    if i == 0 {
      assert devices[..1] == [devices[0]] && devices[..1][1..] == [];
    } else {
      assert devices[..i + 1][0] == devices[0] && devices[..i + 1][1..] == devices[1..][..i];
      assert realtimeData(devices[..i][0].id).Ok?;
      var later := devices[1..][..i - 1];
      assert AllRealtimeOk(later, realtimeData) by {
        forall k | 0 <= k < |later|
          ensures realtimeData(later[k].id).Ok?
        {
          assert later[k] == devices[..i][k + 1];
        }
      }
      assert devices[1..][i - 1] == devices[i];
      DeviceFailureStops(h, ip, devices[1..], i - 1, realtimeData);
    }
  }

  // ---------------------------------------------------------------------
  // Filtering and counting

  function NumericItemCount<V>(h: Host<V>, items: seq<RealtimeItem<V>>): nat
  {
    if items == [] then 0
    else (if IsNumeric(h, items[0].dataValue) then 1 else 0) + NumericItemCount(h, items[1..])
  }

  function NumericVoltageCount<V>(h: Host<V>, items: seq<DcItem<V>>): nat
  {
    if items == [] then 0
    else (if IsNumeric(h, items[0].voltage) then 1 else 0) + NumericVoltageCount(h, items[1..])
  }

  function NumericCurrentCount<V>(h: Host<V>, items: seq<DcItem<V>>): nat
  {
    if items == [] then 0
    else (if IsNumeric(h, items[0].current) then 1 else 0) + NumericCurrentCount(h, items[1..])
  }

  /** The numeric realtime items of all devices whose query is answered. */
  function RealtimeTotal<V>(h: Host<V>, devices: seq<Device>, realtimeData: string -> Result<seq<RealtimeItem<V>>>): nat
  {
    if devices == [] then 0
    else
      (match realtimeData(devices[0].id) case Ok(items) => NumericItemCount(h, items) case Err(_) => 0)
      + RealtimeTotal(h, devices[1..], realtimeData)
  }

  /** A device yields exactly one fragment per numeric realtime item. */
  lemma {:induction false} RealtimeFragmentsCount<V>(h: Host<V>, ip: string, d: Device, items: seq<RealtimeItem<V>>)
    ensures |RealtimeFragments(h, ip, d, items)| == NumericItemCount(h, items)
  {
    if items != [] {
      RealtimeFragmentsCount(h, ip, d, items[1..]);
    }
  }

  /** A string is a fragment of device `d` exactly when it is the fragment
      of one of its items whose value is numeric. */
  lemma {:induction false} RealtimeFragmentsMembers<V>(h: Host<V>, ip: string, d: Device, items: seq<RealtimeItem<V>>, f: string)
    ensures f in RealtimeFragments(h, ip, d, items)
        <==> exists k :: 0 <= k < |items| && IsNumeric(h, items[k].dataValue) && f == RealtimeFragment(h, ip, d, items[k])
  {
    if items != [] {
      var rest := items[1..];
      RealtimeFragmentsMembers(h, ip, d, rest, f);
      if f in RealtimeFragments(h, ip, d, rest) {
        var k :| 0 <= k < |rest| && IsNumeric(h, rest[k].dataValue) && f == RealtimeFragment(h, ip, d, rest[k]);
        assert rest[k] == items[k + 1];
      }
      if exists k :: 0 <= k < |items| && IsNumeric(h, items[k].dataValue) && f == RealtimeFragment(h, ip, d, items[k]) {
        var k :| 0 <= k < |items| && IsNumeric(h, items[k].dataValue) && f == RealtimeFragment(h, ip, d, items[k]);
        if k > 0 {
          assert items[k] == rest[k - 1];
        }
      }
    }
  }

  /** The DC items yield one fragment per numeric voltage and one per
      numeric current. */
  lemma {:induction false} DcFragmentsCount<V>(h: Host<V>, ip: string, items: seq<DcItem<V>>)
    ensures |DcFragments(h, ip, items)| == NumericVoltageCount(h, items) + NumericCurrentCount(h, items)
  {
    if items != [] {
      DcFragmentsCount(h, ip, items[1..]);
    }
  }

  /** A string is a DC fragment exactly when it is the voltage fragment of
      an item with a numeric voltage or the current fragment of an item
      with a numeric current: the two checks are independent. */
  lemma {:induction false} DcFragmentsMembers<V>(h: Host<V>, ip: string, items: seq<DcItem<V>>, f: string)
    ensures f in DcFragments(h, ip, items)
        <==> exists k :: 0 <= k < |items|
               && ((IsNumeric(h, items[k].voltage) && f == DcVoltageFragment(h, ip, items[k]))
                   || (IsNumeric(h, items[k].current) && f == DcCurrentFragment(h, ip, items[k])))
  {
    if items != [] {
      var rest := items[1..];
      DcFragmentsMembers(h, ip, rest, f);
      if f in DcFragments(h, ip, rest) {
        var k :| 0 <= k < |rest|
               && ((IsNumeric(h, rest[k].voltage) && f == DcVoltageFragment(h, ip, rest[k]))
                   || (IsNumeric(h, rest[k].current) && f == DcCurrentFragment(h, ip, rest[k])));
        assert rest[k] == items[k + 1];
      }
      if exists k :: 0 <= k < |items|
               && ((IsNumeric(h, items[k].voltage) && f == DcVoltageFragment(h, ip, items[k]))
                   || (IsNumeric(h, items[k].current) && f == DcCurrentFragment(h, ip, items[k]))) {
        var k :| 0 <= k < |items|
               && ((IsNumeric(h, items[k].voltage) && f == DcVoltageFragment(h, ip, items[k]))
                   || (IsNumeric(h, items[k].current) && f == DcCurrentFragment(h, ip, items[k])));
        if k > 0 {
          assert items[k] == rest[k - 1];
        }
      }
    }
  }

  lemma {:induction false} DeviceFragmentsCount<V>(h: Host<V>, ip: string, devices: seq<Device>,
                                                  realtimeData: string -> Result<seq<RealtimeItem<V>>>)
    requires DeviceFragments(h, ip, devices, realtimeData).Ok?
    ensures |DeviceFragments(h, ip, devices, realtimeData).value| == RealtimeTotal(h, devices, realtimeData)
  {
    if devices != [] {
      DeviceFragmentsCount(h, ip, devices[1..], realtimeData);
      RealtimeFragmentsCount(h, ip, devices[0], realtimeData(devices[0].id).value);
    }
  }

  /** A complete collection has two state fragments, one per numeric
      realtime item, one per numeric DC voltage and one per numeric DC
      current. */
  lemma FragmentCount<V>(h: Host<V>, ip: string, a: Answers<V>)
    requires AllQueried(a)
    ensures Fragments(h, ip, a).Ok?
    ensures |Fragments(h, ip, a).value|
         == 2 + RealtimeTotal(h, a.deviceList.value, a.realtimeData)
              + NumericVoltageCount(h, a.dcData(DcChannel).value)
              + NumericCurrentCount(h, a.dcData(DcChannel).value)
  {
    DeviceFragmentsOk(h, ip, a.deviceList.value, a.realtimeData);
    DeviceFragmentsCount(h, ip, a.deviceList.value, a.realtimeData);
    DcFragmentsCount(h, ip, a.dcData(DcChannel).value);
  }

  // ---------------------------------------------------------------------
  // The document

  /** The fragments are complete exactly when every query is answered,
      and a document is produced exactly when, in addition, `disconnect`
      does not throw; any failure leaves no document at all. */
  lemma CollectSucceedsIff<V>(h: Host<V>, ip: string, a: Answers<V>)
    ensures Fragments(h, ip, a).Ok? <==> AllQueried(a)
    ensures Collect(h, ip, a).Ok? <==> AllAnswered(a)
  {
    if a.authenticate.Pass? && a.state.Ok? && a.deviceList.Ok? {
      DeviceFragmentsOk(h, ip, a.deviceList.value, a.realtimeData);
    }
  }

  /** The document begins with the alarm-total fragment, a newline and the
      fault-total fragment, both labelled with the ip alone. */
  lemma DocumentBeginsWithState<V>(h: Host<V>, ip: string, a: Answers<V>)
    requires AllAnswered(a)
    ensures Collect(h, ip, a).Ok?
    ensures var alarm := FormatMetric(h.slug, "state_total_alarm", Gauge, [Label("ip", ip)], h.show(a.state.value.totalAlarm));
            var fault := FormatMetric(h.slug, "state_total_fault", Gauge, [Label("ip", ip)], h.show(a.state.value.totalFault));
            var doc := Collect(h, ip, a).value;
            |doc| >= |alarm| + 1 + |fault| && doc[..|alarm| + 1 + |fault|] == alarm + "\n" + fault
  {
    CollectSucceedsIff(h, ip, a);
    var fs := Fragments(h, ip, a).value;
    var state := StateFragments(h, ip, a.state.value);
    assert fs[..2] == state by {
      var realtime := DeviceFragments(h, ip, a.deviceList.value, a.realtimeData).value;
      assert fs == state + realtime + DcFragments(h, ip, a.dcData(DcChannel).value);
    }
    var alarm := state[0];
    var fault := state[1];
    assert fs[0] == alarm && fs[1] == fault by {
      assert fs[0] == fs[..2][0] && fs[1] == fs[..2][1];
    }
    JoinBeginsWithTwo(fs, '\n');
  }

  // ---------------------------------------------------------------------
  // The calls of a session

  lemma {:induction false} DeviceCallsAllAnswered<V>(devices: seq<Device>, realtimeData: string -> Result<seq<RealtimeItem<V>>>)
    requires AllRealtimeOk(devices, realtimeData)
    ensures DeviceCalls(devices, realtimeData)
         == seq(|devices|, k requires 0 <= k < |devices| => GetDeviceRealtimeData(devices[k].id))
  {
    if devices != [] {
      AllRealtimeOkSplit(devices, realtimeData);
      DeviceCallsAllAnswered(devices[1..], realtimeData);
    }
  }

  /** The first `n` calls are all answered. */
  predicate AnsweredBefore<V>(a: Answers<V>, calls: seq<Call>, n: int)
  {
    forall k :: 0 <= k < n && k < |calls| ==> Answer(a, calls[k]) == Pass
  }

  predicate OnlyRealtimeQueries(calls: seq<Call>)
  {
    forall k :: 0 <= k < |calls| ==> calls[k].GetDeviceRealtimeData?
  }

  /** In the device loop every realtime query but the last is answered;
      when the loop fails, its last query is the one that failed, with the
      loop's cause. */
  lemma {:induction false} DeviceCallsTrace<V>(h: Host<V>, ip: string, a: Answers<V>, devices: seq<Device>)
    ensures OnlyRealtimeQueries(DeviceCalls(devices, a.realtimeData))
    ensures AnsweredBefore(a, DeviceCalls(devices, a.realtimeData), |DeviceCalls(devices, a.realtimeData)| - 1)
    ensures DeviceFragments(h, ip, devices, a.realtimeData).Ok? ==>
              AnsweredBefore(a, DeviceCalls(devices, a.realtimeData), |DeviceCalls(devices, a.realtimeData)|)
    ensures DeviceFragments(h, ip, devices, a.realtimeData).Err? ==>
              var calls := DeviceCalls(devices, a.realtimeData);
              calls != [] && Answer(a, calls[|calls| - 1]) == Fail(DeviceFragments(h, ip, devices, a.realtimeData).cause)
  {
    if devices != [] {
      var first := GetDeviceRealtimeData(devices[0].id);
      var calls := DeviceCalls(devices, a.realtimeData);
      if a.realtimeData(devices[0].id).Ok? {
        var rest := DeviceCalls(devices[1..], a.realtimeData);
        DeviceCallsTrace(h, ip, a, devices[1..]);
        assert calls == [first] + rest;
        forall k | 0 <= k < |calls|
          ensures calls[k].GetDeviceRealtimeData?
          ensures k < |calls| - 1 ==> Answer(a, calls[k]) == Pass
          ensures DeviceFragments(h, ip, devices, a.realtimeData).Ok? ==> Answer(a, calls[k]) == Pass
        {
          if k > 0 {
            assert calls[k] == rest[k - 1];
          }
        }
        if rest != [] {
          assert calls[|calls| - 1] == rest[|rest| - 1];
        }
      } else {
        assert calls == [first];
      }
    }
  }

  /** The session's calls: each one before the last is answered; a
      session with a document ends with a successful `Disconnect`, and a
      failed one ends with the call whose failure is the outcome; no
      session disconnects before its last call. */
  lemma SessionTrace<V>(h: Host<V>, ip: string, a: Answers<V>)
    ensures var calls := SessionCalls(a);
      && calls != []
      && (forall k :: 0 <= k < |calls| - 1 ==> Answer(a, calls[k]) == Pass && calls[k] != Disconnect)
      && (Collect(h, ip, a).Ok? <==> calls[|calls| - 1] == Disconnect && Answer(a, Disconnect) == Pass)
      && (Collect(h, ip, a).Err? ==> Answer(a, calls[|calls| - 1]) == Fail(Collect(h, ip, a).cause))
  {
    if a.authenticate.Fail? {
      assert SessionCalls(a) == [Authenticate];
    } else if a.state.Err? {
      assert SessionCalls(a) == [Authenticate, GetState];
    } else if a.deviceList.Err? {
      assert SessionCalls(a) == [Authenticate, GetState, GetDeviceList];
    } else {
      var devices := a.deviceList.value;
      DeviceCallsTrace(h, ip, a, devices);
      DeviceFragmentsOk(h, ip, devices, a.realtimeData);
      var head := [Authenticate, GetState, GetDeviceList];
      var queried := head + DeviceCalls(devices, a.realtimeData);
      forall k | 0 <= k < |queried|
        ensures k < 3 ==> queried[k] == head[k]
        ensures k >= 3 ==> queried[k] == DeviceCalls(devices, a.realtimeData)[k - 3]
      {
      }
    }
  }

  /** The session disconnects if and only if every query was answered: a
      session whose query fails is left connected. */
  lemma DisconnectOnlyWhenAllQueried<V>(a: Answers<V>)
    ensures Disconnect in SessionCalls(a) <==> AllQueried(a)
  {
    if a.authenticate.Pass? && a.state.Ok? && a.deviceList.Ok? && !AllQueried(a) {
      var devices := a.deviceList.value;
      var realtime := DeviceCalls(devices, a.realtimeData);
      // the fragments play no part here, so any host will do
      var h: Host<V> := Host(s => s, v => false, v => "");
      DeviceCallsTrace(h, "", a, devices);
      var queried := [Authenticate, GetState, GetDeviceList] + realtime;
      forall k | 0 <= k < |queried|
        ensures queried[k] != Disconnect
      {
        if k >= 3 {
          assert queried[k] == realtime[k - 3];
        }
      }
    }
  }

  /** A session whose queries are all answered makes exactly these calls:
      the authentication, the state, the device list, one realtime query
      per device in list order, the DC query for channel 1, and the
      disconnect, whatever the disconnect then does. */
  lemma SessionCallsAllAnswered<V>(a: Answers<V>)
    requires AllQueried(a)
    ensures var devices := a.deviceList.value;
      SessionCalls(a)
        == [Authenticate, GetState, GetDeviceList]
           + seq(|devices|, k requires 0 <= k < |devices| => GetDeviceRealtimeData(devices[k].id))
           + [GetDeviceDcData(1), Disconnect]
  {
    DeviceCallsAllAnswered(a.deviceList.value, a.realtimeData);
  }

  /** Only channel 1 is ever asked for DC data: what the device would
      answer for any other channel changes neither the outcome nor the
      calls. */
  lemma OnlyChannelOneQueried<V>(h: Host<V>, ip: string, a: Answers<V>, dcData: int -> Result<seq<DcItem<V>>>)
    requires dcData(1) == a.dcData(1)
    ensures Collect(h, ip, a.(dcData := dcData)) == Collect(h, ip, a)
    ensures SessionCalls(a.(dcData := dcData)) == SessionCalls(a)
  {
  }
}
