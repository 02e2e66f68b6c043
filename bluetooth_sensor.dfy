/**
 * The Bluetooth sensor hook: decoding of the Environmental Sensing
 * characteristics, the merge of single-field updates into the reading
 * snapshot, and the connection state driven by scan-and-connect, explicit
 * disconnect and the peripheral dropping the link. The Web Bluetooth calls
 * appear only through their outcomes.
 */
module BluetoothSensor {
  import opened Wrappers

  newtype byte = b: int | 0 <= b < 256

  // ---------------------------------------------------------------------
  // Characteristic values (Temperature 0x2A6E: sint16, Humidity 0x2A6F:
  // uint16, both little-endian in hundredths)
  // ---------------------------------------------------------------------

  /** The signed 16-bit little-endian integer of two bytes (`getInt16(0, true)`). */
  function Int16LE(b0: byte, b1: byte): (v: int)
    ensures -32768 <= v <= 32767
  {
    var u := b0 as int + 256 * b1 as int;
    if u >= 32768 then u - 65536 else u
  }

  /** The unsigned 16-bit little-endian integer of two bytes (`getUint16(0, true)`). */
  function Uint16LE(b0: byte, b1: byte): (v: int)
    ensures 0 <= v <= 65535
  {
    b0 as int + 256 * b1 as int
  }

  /** The two little-endian bytes of an unsigned 16-bit value. */
  function EncodeUint16LE(v: int): (bytes: seq<byte>)
    requires 0 <= v <= 65535
    ensures |bytes| == 2 && Uint16LE(bytes[0], bytes[1]) == v
  {
    [(v % 256) as byte, (v / 256) as byte]
  }

  /** The two little-endian bytes of a signed 16-bit value, in two's complement. */
  function EncodeInt16LE(v: int): (bytes: seq<byte>)
    requires -32768 <= v <= 32767
    ensures |bytes| == 2 && Int16LE(bytes[0], bytes[1]) == v
  {
    EncodeUint16LE(if v < 0 then v + 65536 else v)
  }

  /** Every pair of bytes is the encoding of the value it decodes to. */
  lemma Int16LEInjective(b0: byte, b1: byte)
    ensures EncodeInt16LE(Int16LE(b0, b1)) == [b0, b1]
  {
    var u := b0 as int + 256 * b1 as int;
    assert u % 256 == b0 as int && u / 256 == b1 as int;
  }

  lemma Uint16LEInjective(b0: byte, b1: byte)
    ensures EncodeUint16LE(Uint16LE(b0, b1)) == [b0, b1]
  {
    var u := b0 as int + 256 * b1 as int;
    assert u % 256 == b0 as int && u / 256 == b1 as int;
  }

  /**
   * The temperature in degrees Celsius carried by a notification. A value
   * shorter than two bytes makes `getInt16` throw inside the listener, so no
   * update happens; bytes after the first two are ignored.
   */
  function DecodeTemperature(value: seq<byte>): (r: Option<real>)
    ensures r.None? <==> |value| < 2
    ensures r.Some? ==> -327.68 <= r.value <= 327.67
  {
    if |value| < 2 then None else Some(Int16LE(value[0], value[1]) as real / 100.0)
  }

  /** The relative humidity in percent carried by a notification; never negative. */
  function DecodeHumidity(value: seq<byte>): (r: Option<real>)
    ensures r.None? <==> |value| < 2
    ensures r.Some? ==> 0.0 <= r.value <= 655.35
  {
    if |value| < 2 then None else Some(Uint16LE(value[0], value[1]) as real / 100.0)
  }

  /** A sensor sending `c` hundredths of a degree is read as exactly c / 100 degrees. */
  lemma TemperatureRoundTrip(c: int, rest: seq<byte>)
    requires -32768 <= c <= 32767
    ensures DecodeTemperature(EncodeInt16LE(c) + rest) == Some(c as real / 100.0)
  {
    var bytes := EncodeInt16LE(c) + rest;
    assert bytes[0] == EncodeInt16LE(c)[0] && bytes[1] == EncodeInt16LE(c)[1];
  }

  /** A sensor sending `c` hundredths of a percent is read as exactly c / 100 percent. */
  lemma HumidityRoundTrip(c: int, rest: seq<byte>)
    requires 0 <= c <= 65535
    ensures DecodeHumidity(EncodeUint16LE(c) + rest) == Some(c as real / 100.0)
  {
    var bytes := EncodeUint16LE(c) + rest;
    assert bytes[0] == EncodeUint16LE(c)[0] && bytes[1] == EncodeUint16LE(c)[1];
  }

  /** Two notifications decode to the same temperature only if their first two bytes agree. */
  lemma TemperatureDecodingInjective(v: seq<byte>, w: seq<byte>)
    requires |v| >= 2 && |w| >= 2
    requires DecodeTemperature(v) == DecodeTemperature(w)
    ensures v[..2] == w[..2]
  {
    assert Int16LE(v[0], v[1]) == Int16LE(w[0], w[1]);
    Int16LEInjective(v[0], v[1]);
    Int16LEInjective(w[0], w[1]);
  }

  lemma HumidityDecodingInjective(v: seq<byte>, w: seq<byte>)
    requires |v| >= 2 && |w| >= 2
    requires DecodeHumidity(v) == DecodeHumidity(w)
    ensures v[..2] == w[..2]
  {
    assert Uint16LE(v[0], v[1]) == Uint16LE(w[0], w[1]);
    Uint16LEInjective(v[0], v[1]);
    Uint16LEInjective(w[0], w[1]);
  }

  // ---------------------------------------------------------------------
  // The reading snapshot
  // ---------------------------------------------------------------------

  /** The snapshot: each metric present only once some update carried it. */
  datatype SensorData = SensorData(
    temperature: Option<real>,
    humidity: Option<real>,
    gas: Option<real>,
    vibration: Option<real>,
    timestamp: string)

  /** A partial update: the fields it carries. */
  datatype Update = Update(
    temperature: Option<real>,
    humidity: Option<real>,
    gas: Option<real>,
    vibration: Option<real>)

  function Overlay(incoming: Option<real>, previous: Option<real>): Option<real>
  {
    if incoming.Some? then incoming else previous
  }

  /**
   * `{...prev, ...update, timestamp: now}`: fields the update carries
   * replace the old ones, the others keep their previous values (none when
   * there was no snapshot), and the timestamp is the time of the update.
   */
  function Merge(prev: Option<SensorData>, update: Update, now: string): (r: SensorData)
    ensures r.timestamp == now
    ensures update.temperature.Some? ==> r.temperature == update.temperature
    ensures update.humidity.Some? ==> r.humidity == update.humidity
    ensures update.gas.Some? ==> r.gas == update.gas
    ensures update.vibration.Some? ==> r.vibration == update.vibration
    ensures update.temperature.None? ==> r.temperature == (if prev.Some? then prev.value.temperature else None)
    ensures update.humidity.None? ==> r.humidity == (if prev.Some? then prev.value.humidity else None)
    ensures update.gas.None? ==> r.gas == (if prev.Some? then prev.value.gas else None)
    ensures update.vibration.None? ==> r.vibration == (if prev.Some? then prev.value.vibration else None)
  {
    var p := prev.GetOr(SensorData(None, None, None, None, now));
    SensorData(
      Overlay(update.temperature, p.temperature),
      Overlay(update.humidity, p.humidity),
      Overlay(update.gas, p.gas),
      Overlay(update.vibration, p.vibration),
      now)
  }

  /** Merging into no snapshot yields just the update's fields and the time. */
  lemma MergeIntoNothing(update: Update, now: string)
    ensures Merge(None, update, now)
         == SensorData(update.temperature, update.humidity, update.gas, update.vibration, now)
  {
  }

  /** The update that applies `second` over `first`. */
  function Then(first: Update, second: Update): Update
  {
    Update(
      Overlay(second.temperature, first.temperature),
      Overlay(second.humidity, first.humidity),
      Overlay(second.gas, first.gas),
      Overlay(second.vibration, first.vibration))
  }

  /** Two merges in a row are one merge of the combined update, stamped with the later time. */
  lemma MergeTwice(prev: Option<SensorData>, first: Update, second: Update, t1: string, t2: string)
    ensures Merge(Some(Merge(prev, first, t1)), second, t2) == Merge(prev, Then(first, second), t2)
  {
  }

  /** Repeating an update changes nothing but the timestamp. */
  lemma MergeIdempotent(prev: Option<SensorData>, update: Update, t1: string, t2: string)
    ensures Merge(Some(Merge(prev, update, t1)), update, t2) == Merge(prev, update, t2)
  {
    MergeTwice(prev, update, update, t1, t2);
    assert Then(update, update) == update;
  }

  /** Updates that carry different fields commute, up to the timestamp. */
  lemma DisjointUpdatesCommute(prev: Option<SensorData>, u: Update, w: Update, t1: string, t2: string)
    requires u.temperature.None? || w.temperature.None?
    requires u.humidity.None? || w.humidity.None?
    requires u.gas.None? || w.gas.None?
    requires u.vibration.None? || w.vibration.None?
    ensures Merge(Some(Merge(prev, u, t1)), w, t2) == Merge(Some(Merge(prev, w, t1)), u, t2)
  {
  }

  // ---------------------------------------------------------------------
  // Connection state
  // ---------------------------------------------------------------------

  /** A peripheral the user picked: its id and its advertised name, if any. */
  datatype Peripheral = Peripheral(id: string, name: Option<string>)

  /** What the hook stores about the connected device. */
  datatype DeviceInfo = DeviceInfo(id: string, name: string, connected: bool)

  datatype Characteristic = TemperatureCharacteristic | HumidityCharacteristic

  /** A characteristic of a device whose value listener is registered and notifying. */
  datatype Subscription = Subscription(device: string, characteristic: Characteristic)

  /**
   * How fetching the Environmental Sensing service went and, when it was
   * found, whether each characteristic was obtained and started notifying.
   */
  datatype ServiceOutcome =
    | ServiceUnavailable
    | ServiceFound(temperatureOk: bool, humidityOk: bool)

  /** How one scan-and-connect attempt went after the user was asked to pick a device. */
  datatype ScanOutcome =
    /** `requestDevice` rejected (the user cancelled, nothing matched) or gave no device. */
    | NoDeviceSelected
    /** The device has no GATT server, `connect()` rejected, or it gave no server. */
    | GattFailed(device: Peripheral)
    /** `connect()` gave a server; then the service and characteristics went as stated. */
    | GattConnected(device: Peripheral, service: ServiceOutcome)

  /** The toast a scan-and-connect attempt ends with. */
  datatype AttemptResult = NotSupported | ConnectionFailed | ConnectedTo(info: DeviceInfo)

  /** `device.name || "Unknown Sensor"`. */
  function DisplayName(name: Option<string>): (r: string)
    ensures name.Some? && name.value != "" ==> r == name.value
    ensures name.None? || name.value == "" ==> r == "Unknown Sensor"
    ensures r != ""
  {
    if name.Some? && name.value != "" then name.value else "Unknown Sensor"
  }

  /**
   * The characteristics `startReadingData` leaves notifying: each one
   * whose own attempt succeeded, provided the service was found.
   */
  function Subscribed(service: ServiceOutcome): (chars: set<Characteristic>)
    ensures TemperatureCharacteristic in chars <==> service.ServiceFound? && service.temperatureOk
    ensures HumidityCharacteristic in chars <==> service.ServiceFound? && service.humidityOk
  {
    match service
    case ServiceUnavailable => {}
    case ServiceFound(t, h) =>
      (if t then {TemperatureCharacteristic} else {}) + (if h then {HumidityCharacteristic} else {})
  }

  /** A temperature failure never costs the humidity subscription; only a missing service does. */
  lemma HumidityIndependentOfTemperature(t1: bool, t2: bool, h: bool)
    ensures (HumidityCharacteristic in Subscribed(ServiceFound(t1, h)))
        == (HumidityCharacteristic in Subscribed(ServiceFound(t2, h)))
    ensures Subscribed(ServiceUnavailable) == {}
  {
  }

  /** The single-field update a notification of `c` produces, if its value decodes. */
  function ValueUpdate(c: Characteristic, value: seq<byte>): (u: Option<Update>)
    ensures u.None? <==> |value| < 2
    ensures u.Some? && c == TemperatureCharacteristic ==>
              u.value == Update(DecodeTemperature(value), None, None, None)
    ensures u.Some? && c == HumidityCharacteristic ==>
              u.value == Update(None, DecodeHumidity(value), None, None)
  {
    match c
    case TemperatureCharacteristic =>
      var t := DecodeTemperature(value);
      if t.Some? then Some(Update(t, None, None, None)) else None
    case HumidityCharacteristic =>
      var h := DecodeHumidity(value);
      if h.Some? then Some(Update(None, h, None, None)) else None
  }

  /** The state of one instance of the hook, after its mount effect has run. */
  class SensorConnection {
    /** Whether `navigator.bluetooth` exists. */
    var isSupported: bool
    var connectedDevice: Option<DeviceInfo>
    var sensorData: Option<SensorData>
    var isConnecting: bool
    /** Devices that carry this hook's `gattserverdisconnected` listener; it is never removed. */
    var watched: set<string>
    /** Value listeners registered and notifying. */
    var subscriptions: set<Subscription>

    ghost predicate Valid()
      reads this
    {
      && (connectedDevice.Some? ==> connectedDevice.value.connected && connectedDevice.value.id in watched)
      && (forall s :: s in subscriptions ==> s.device in watched)
      && (!isSupported ==>
            connectedDevice.None? && sensorData.None? && !isConnecting && watched == {} && subscriptions == {})
    }

    constructor (bluetoothInNavigator: bool)
      ensures Valid()
      ensures isSupported == bluetoothInNavigator
      ensures connectedDevice.None? && sensorData.None? && !isConnecting
      ensures watched == {} && subscriptions == {}
    {
      isSupported := bluetoothInNavigator;
      connectedDevice := None;
      sensorData := None;
      isConnecting := false;
      watched := {};
      subscriptions := {};
    }

    /**
     * The start of `scanAndConnect`, up to the device chooser: without
     * Bluetooth nothing changes; otherwise the hook is connecting.
     */
    method BeginScan() returns (started: bool)
      requires Valid()
      modifies this
      ensures Valid()
      ensures started == isSupported
      ensures !started ==> unchanged(this)
      ensures started ==> isConnecting
      ensures connectedDevice == old(connectedDevice) && sensorData == old(sensorData)
      ensures watched == old(watched) && subscriptions == old(subscriptions) && isSupported == old(isSupported)
    {
      if !isSupported {
        started := false;
        return;
      }
      started := true;
      isConnecting := true;
    }

    /**
     * `startReadingData`: subscribe to temperature, then to humidity, each
     * in its own try; a missing service skips both. Returns whether the
     * "Data Reading Error" toast is shown.
     */
    method StartReadingData(device: string, service: ServiceOutcome) returns (readError: bool)
      requires Valid()
      requires device in watched
      modifies this`subscriptions
      ensures Valid()
      ensures readError <==> service.ServiceUnavailable?
      ensures forall c :: Subscription(device, c) in subscriptions <==>
                Subscription(device, c) in old(subscriptions) || c in Subscribed(service)
      ensures forall s: Subscription :: s.device != device ==> (s in subscriptions <==> s in old(subscriptions))
    {
      if service.ServiceUnavailable? {
        readError := true;
        return;
      }
      readError := false;
      if service.temperatureOk {
        subscriptions := subscriptions + {Subscription(device, TemperatureCharacteristic)};
      }
      if service.humidityOk {
        subscriptions := subscriptions + {Subscription(device, HumidityCharacteristic)};
      }
    }

    /**
     * The rest of `scanAndConnect`, once the chooser and the GATT connection
     * have settled: on a server the device is stored, watched and read;
     * any failure leaves the device state as it was. Either way the hook
     * stops connecting.
     */
    method FinishScan(outcome: ScanOutcome) returns (result: AttemptResult)
      requires Valid()
      requires isSupported
      modifies this
      ensures Valid()
      ensures !isConnecting
      ensures isSupported && sensorData == old(sensorData)
      ensures !outcome.GattConnected? ==>
                result == ConnectionFailed && connectedDevice == old(connectedDevice)
                && watched == old(watched) && subscriptions == old(subscriptions)
      ensures outcome.GattConnected? ==>
                var info := DeviceInfo(outcome.device.id, DisplayName(outcome.device.name), true);
                && result == ConnectedTo(info)
                && connectedDevice == Some(info)
                && watched == old(watched) + {outcome.device.id}
                && subscriptions == old(subscriptions)
                     + set c | c in Subscribed(outcome.service) :: Subscription(outcome.device.id, c)
    {
      match outcome {
        case NoDeviceSelected =>
          result := ConnectionFailed;
        case GattFailed(_) =>
          result := ConnectionFailed;
        case GattConnected(device, service) =>
          var info := DeviceInfo(device.id, DisplayName(device.name), true);
          connectedDevice := Some(info);
          watched := watched + {device.id};
          result := ConnectedTo(info);
          var _ := StartReadingData(device.id, service);
          assert subscriptions == old(subscriptions)
                   + set c | c in Subscribed(service) :: Subscription(device.id, c);
      }
      isConnecting := false;
    }

    /** The whole `scanAndConnect` attempt with the given outcome of the Bluetooth calls. */
    method ScanAndConnect(outcome: ScanOutcome) returns (result: AttemptResult)
      requires Valid()
      modifies this
      ensures Valid()
      ensures !old(isSupported) ==> result == NotSupported && unchanged(this)
      ensures old(isSupported) ==> !isConnecting && sensorData == old(sensorData)
      ensures old(isSupported) && outcome.GattConnected? ==>
                var info := DeviceInfo(outcome.device.id, DisplayName(outcome.device.name), true);
                && result == ConnectedTo(info)
                && connectedDevice == Some(info)
                && watched == old(watched) + {outcome.device.id}
                && subscriptions == old(subscriptions)
                     + set c | c in Subscribed(outcome.service) :: Subscription(outcome.device.id, c)
      ensures old(isSupported) && !outcome.GattConnected? ==>
                result == ConnectionFailed && connectedDevice == old(connectedDevice)
                && watched == old(watched) && subscriptions == old(subscriptions)
    {
      var started := BeginScan();
      if !started {
        result := NotSupported;
        return;
      }
      result := FinishScan(outcome);
    }

    /**
     * The disconnect action: with a device stored, forget it and the
     * snapshot; with none, do nothing. The link itself is not closed, so
     * watchers and value listeners stay.
     */
    method Disconnect()
      requires Valid()
      modifies this
      ensures Valid()
      ensures old(connectedDevice).Some? ==> connectedDevice.None? && sensorData.None?
      ensures old(connectedDevice).None? ==> unchanged(this)
      ensures isSupported == old(isSupported) && isConnecting == old(isConnecting)
      ensures watched == old(watched) && subscriptions == old(subscriptions)
    {
      if connectedDevice.Some? {
        connectedDevice := None;
        sensorData := None;
      }
    }

    /**
     * Device `id` drops its GATT link: its notifications stop, and if it
     * carries the listener the stored device and snapshot are cleared,
     * whichever device is currently stored.
     */
    method PeripheralDisconnected(id: string)
      requires Valid()
      modifies this
      ensures Valid()
      ensures id in old(watched) ==> connectedDevice.None? && sensorData.None?
      ensures id !in old(watched) ==>
                connectedDevice == old(connectedDevice) && sensorData == old(sensorData)
      ensures subscriptions == set s | s in old(subscriptions) && s.device != id
      ensures isSupported == old(isSupported) && isConnecting == old(isConnecting)
      ensures watched == old(watched)
    {
      subscriptions := set s | s in subscriptions && s.device != id;
      if id in watched {
        connectedDevice := None;
        sensorData := None;
      }
    }

    /**
     * A `characteristicvaluechanged` event: a subscribed characteristic's
     * value that decodes is merged into the snapshot, stamped `now`.
     */
    method ValueChanged(s: Subscription, value: seq<byte>, now: string)
      requires Valid()
      modifies this`sensorData
      ensures Valid()
      ensures s !in subscriptions || |value| < 2 ==> sensorData == old(sensorData)
      ensures s in subscriptions && |value| >= 2 ==>
                sensorData == Some(Merge(old(sensorData), ValueUpdate(s.characteristic, value).value, now))
    {
      if s !in subscriptions {
        return;
      }
      var update := ValueUpdate(s.characteristic, value);
      if update.Some? {
        sensorData := Some(Merge(sensorData, update.value, now));
      }
    }
  }

  /**
   * An explicit disconnect leaves the value listeners in place, so a
   * notification that arrives afterwards re-creates a snapshot while no
   * device is stored.
   */
  method ReadingAfterDisconnect(p: Peripheral, value: seq<byte>, now: string)
    returns (device: Option<DeviceInfo>, data: Option<SensorData>)
    requires |value| >= 2
    ensures device.None?
    ensures data == Some(SensorData(DecodeTemperature(value), None, None, None, now))
  {
    var hook := new SensorConnection(true);
    var _ := hook.ScanAndConnect(GattConnected(p, ServiceFound(true, false)));
    hook.Disconnect();
    hook.ValueChanged(Subscription(p.id, TemperatureCharacteristic), value, now);
    device, data := hook.connectedDevice, hook.sensorData;
  }

  /**
   * The listener of an earlier device stays registered: when that device's
   * link drops it clears the device connected after it.
   */
  method StaleWatcherClearsNewDevice(a: Peripheral, b: Peripheral)
    returns (before: Option<DeviceInfo>, after: Option<DeviceInfo>)
    ensures before == Some(DeviceInfo(b.id, DisplayName(b.name), true))
    ensures after.None?
  {
    var hook := new SensorConnection(true);
    var first := hook.ScanAndConnect(GattConnected(a, ServiceUnavailable));
    hook.Disconnect();
    var second := hook.ScanAndConnect(GattConnected(b, ServiceUnavailable));
    before := hook.connectedDevice;
    hook.PeripheralDisconnected(a.id);
    after := hook.connectedDevice;
  }
}
