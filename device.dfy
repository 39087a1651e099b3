/**
 * The device screen: the decoders of the Bluetooth notifications (heart
 * rate, SpO2, blood pressure, battery), the live readings they update, the
 * texts they hand to the app to save, and the connection status machine.
 */
module Device {
  import opened Optional
  import opened Text
  import opened Numbers
  import opened TimeSeries

  type Byte = x: int | 0 <= x < 256

  /** `DataView.getUint16(i, true)`: the little-endian 16-bit number at offset `i`. */
  function Uint16LE(b: seq<Byte>, i: nat): (v: nat)
    requires i + 2 <= |b|
    ensures v < 0x1_0000
  {
    (b[i] as int) + 256 * (b[i + 1] as int)
  }

  /** The two bytes of a 16-bit number, low byte first. */
  function EncodeUint16LE(v: nat): (b: seq<Byte>)
    requires v < 0x1_0000
    ensures |b| == 2
  {
    [v % 256, v / 256]
  }

  lemma Uint16RoundTrip(v: nat, pre: seq<Byte>, post: seq<Byte>)
    requires v < 0x1_0000
    ensures Uint16LE(pre + EncodeUint16LE(v) + post, |pre|) == v
  {
    var b := pre + EncodeUint16LE(v) + post;
    assert b[|pre|] == v % 256 && b[|pre| + 1] == v / 256;
  }

  lemma Uint16Bytes(b: seq<Byte>, i: nat)
    requires i + 2 <= |b|
    ensures EncodeUint16LE(Uint16LE(b, i)) == b[i..i + 2]
  {
  }

  /**
   * The heart-rate measurement: bit 0 of the flags byte selects a 16-bit
   * little-endian rate at offset 1, otherwise the rate is the byte at
   * offset 1. A notification too short for the read throws, which is
   * `None` here.
   */
  function HeartRate(b: seq<Byte>): (r: Option<nat>)
    ensures r.Some? ==> |b| >= 2 && r.value < 0x1_0000
    ensures |b| >= 1 && b[0] % 2 == 0 ==> (r.Some? <==> |b| >= 2) && (r.Some? ==> r.value == b[1])
    ensures |b| >= 1 && b[0] % 2 == 1 ==> (r.Some? <==> |b| >= 3) && (r.Some? ==> r.value == Uint16LE(b, 1))
    ensures |b| == 0 ==> r.None?
  {
    if |b| < 1 then None
    else if b[0] % 2 == 1 then (if |b| < 3 then None else Some(Uint16LE(b, 1)))
    else if |b| < 2 then None
    else Some(b[1])
  }

  /** A heart-rate notification with the given flags byte and rate, 16-bit when bit 0 of the flags is set. */
  function EncodeHeartRate(flags: Byte, rate: nat): (b: seq<Byte>)
    requires flags % 2 == 1 ==> rate < 0x1_0000
    requires flags % 2 == 0 ==> rate < 256
  {
    if flags % 2 == 1 then [flags] + EncodeUint16LE(rate) else [flags, rate]
  }

  /** The decoder reads back the rate of any notification so encoded, whatever the other flag bits. */
  lemma HeartRateRoundTrip(flags: Byte, rate: nat, rest: seq<Byte>)
    requires flags % 2 == 1 ==> rate < 0x1_0000
    requires flags % 2 == 0 ==> rate < 256
    ensures HeartRate(EncodeHeartRate(flags, rate) + rest) == Some(rate)
  {
    if flags % 2 == 1 {
      Uint16RoundTrip(rate, [flags], rest);
      assert EncodeHeartRate(flags, rate) + rest == [flags] + EncodeUint16LE(rate) + rest;
    }
  }

  /** The SpO2 reading: the little-endian 16-bit number at offset 1, in tenths. */
  function SpO2Tenths(b: seq<Byte>): (r: Option<nat>)
    ensures r.Some? <==> |b| >= 3
    ensures r.Some? ==> r.value == Uint16LE(b, 1)
  {
    if |b| < 3 then None else Some(Uint16LE(b, 1))
  }

  /** The SpO2 percentage: the tenths divided by 10. */
  function SpO2(b: seq<Byte>): (r: Option<real>)
    ensures r.Some? <==> |b| >= 3
    ensures r.Some? ==> 0.0 <= r.value < 6553.6 && r.value * 10.0 == Uint16LE(b, 1) as real
  {
    match SpO2Tenths(b)
    case None => None
    case Some(t) => Some(t as real / 10.0)
  }

  datatype Pressure = Pressure(systolic: nat, diastolic: nat)

  /** The blood-pressure reading: systolic at offset 1 and diastolic at offset 3, both little-endian 16-bit. */
  function BloodPressure(b: seq<Byte>): (r: Option<Pressure>)
    ensures r.Some? <==> |b| >= 5
    ensures r.Some? ==> r.value == Pressure(Uint16LE(b, 1), Uint16LE(b, 3))
  {
    if |b| < 5 then None else Some(Pressure(Uint16LE(b, 1), Uint16LE(b, 3)))
  }

  /** A blood-pressure notification: a flags byte, then systolic and diastolic. */
  function EncodeBloodPressure(flags: Byte, p: Pressure): (b: seq<Byte>)
    requires p.systolic < 0x1_0000 && p.diastolic < 0x1_0000
    ensures |b| == 5
  {
    [flags] + EncodeUint16LE(p.systolic) + EncodeUint16LE(p.diastolic)
  }

  lemma BloodPressureRoundTrip(flags: Byte, p: Pressure, rest: seq<Byte>)
    requires p.systolic < 0x1_0000 && p.diastolic < 0x1_0000
    ensures BloodPressure(EncodeBloodPressure(flags, p) + rest) == Some(p)
  {
    var b := EncodeBloodPressure(flags, p) + rest;
    Uint16RoundTrip(p.systolic, [flags], EncodeUint16LE(p.diastolic) + rest);
    assert b == [flags] + EncodeUint16LE(p.systolic) + (EncodeUint16LE(p.diastolic) + rest);
    Uint16RoundTrip(p.diastolic, [flags] + EncodeUint16LE(p.systolic), rest);
    assert b == [flags] + EncodeUint16LE(p.systolic) + EncodeUint16LE(p.diastolic) + rest;
  }

  /** The battery level: the byte at offset 0. */
  function BatteryLevel(b: seq<Byte>): (r: Option<nat>)
    ensures r.Some? <==> |b| >= 1
    ensures r.Some? ==> r.value == b[0] && r.value < 256
  {
    if |b| < 1 then None else Some(b[0])
  }

  /** `spo2.toString()` for a number of tenths: no decimal point for a whole number. */
  function SpO2Text(tenths: nat): string {
    TenthsToString(tenths)
  }

  /** `${systolic}/${diastolic}` */
  function PressureText(p: Pressure): string {
    NatToString(p.systolic) + "/" + NatToString(p.diastolic)
  }

  /** The text saved for an SpO2 reading is read back by the app as the reading itself. */
  lemma SavedValueOfTenths(n: nat)
    ensures SavedValue(SpO2Text(n)) == Some(n as real / 10.0)
  {
    var a := TenthsToString(n);
    var w := NatToString(n / 10);
    forall i | 0 <= i < |w| ensures w[i] !in "/" {
      assert IsDigit(w[i]);
    }
    forall i | 0 <= i < |a| ensures a[i] !in "/" {
      if i >= |w| {
        assert i == |w| || a[i] == DigitChar(n % 10);
      }
    }
    SplitHeadNoOccurrence(a, "/");
    ParseFloatTenths(n);
  }

  /** The app stores the systolic value of a blood-pressure reading and the rate of a heart-rate reading. */
  lemma SavedReadings(p: Pressure, rate: nat)
    ensures SavedValue(PressureText(p)) == Some(p.systolic as real)
    ensures SavedValue(NatToString(rate)) == Some(rate as real)
  {
    SavedValueOfPair(p.systolic, p.diastolic);
    SavedValueOfNat(rate);
  }

  datatype Status = Disconnected | Scanning | Connecting | Connected | Error

  /** The live readings; `None` stands for `null`. */
  datatype LiveVitals = LiveVitals(
    heartRate: Option<nat>,
    spo2: Option<real>,
    bloodPressure: Option<Pressure>,
    temperature: Option<real>,
    batteryLevel: Option<nat>)

  const NoVitals: LiveVitals := LiveVitals(None, None, None, None, None)

  /** The keys of the live readings. */
  datatype Field = HeartRateField | SpO2Field | BloodPressureField | TemperatureField | BatteryField

  /** A value of one live reading, of the field's own kind. */
  datatype LiveValue = Rate(rate: Option<nat>) | Oxygen(level: Option<real>) | Blood(p: Option<Pressure>)
                     | Temp(t: Option<real>) | Battery(charge: Option<nat>)
  {
    function Field(): Field {
      match this
      case Rate(_) => HeartRateField
      case Oxygen(_) => SpO2Field
      case Blood(_) => BloodPressureField
      case Temp(_) => TemperatureField
      case Battery(_) => BatteryField
    }
  }

  /** `liveVitals[field]` */
  function ValueOf(live: LiveVitals, f: Field): (v: LiveValue)
    ensures v.Field() == f
  {
    match f
    case HeartRateField => Rate(live.heartRate)
    case SpO2Field => Oxygen(live.spo2)
    case BloodPressureField => Blood(live.bloodPressure)
    case TemperatureField => Temp(live.temperature)
    case BatteryField => Battery(live.batteryLevel)
  }

  /** `{ ...prev, [vital]: value }`: the named reading takes the value and every other reading is kept. */
  function WithValue(live: LiveVitals, v: LiveValue): (r: LiveVitals)
    ensures ValueOf(r, v.Field()) == v
    ensures forall f :: f != v.Field() ==> ValueOf(r, f) == ValueOf(live, f)
  {
    match v
    case Rate(x) => live.(heartRate := x)
    case Oxygen(x) => live.(spo2 := x)
    case Blood(x) => live.(bloodPressure := x)
    case Temp(x) => live.(temperature := x)
    case Battery(x) => live.(batteryLevel := x)
  }

  /** A metric the screen hands to the app to save: its name and its text. */
  datatype Save = Save(name: string, value: string)

  /** The services subscribed to, in order. */
  datatype Service = HeartRateService | PulseOximeter | BloodPressureService | HealthThermometer | BatteryService

  const Services: seq<Service> := [HeartRateService, PulseOximeter, BloodPressureService, HealthThermometer, BatteryService]

  /** The services whose subscription succeeds; a failing one is skipped and the next one is still tried. */
  function Subscribed(services: seq<Service>, available: Service -> bool): seq<Service> {
    if services == [] then []
    else (if available(services[0]) then [services[0]] else []) + Subscribed(services[1..], available)
  }

  /** The subscriptions are exactly the listed services the device offers. */
  lemma {:induction false} SubscribedExactly(services: seq<Service>, available: Service -> bool)
    ensures forall s :: s in Subscribed(services, available) <==> s in services && available(s)
    ensures |Subscribed(services, available)| <= |services|
  {
    if services != [] {
      SubscribedExactly(services[1..], available);
      assert forall s :: s in services <==> s == services[0] || s in services[1..];
    }
  }

  /** How the browser answers the device chooser: a device, or an error with its message. */
  datatype Choice = Picked(id: nat) | Refused(message: string)

  /**
   * The answer of `gatt.connect()`: a server, no server (the device has no
   * `gatt` or the call resolves to nothing), or a rejection with its message.
   */
  datatype Gatt = Server | NoServer | Rejected(message: string)

  const NoBluetooth: string := "Web Bluetooth API is not available on this browser."
  const NoGattServer: string := "Could not connect to GATT server."
  const ConnectFailed: string := "Failed to connect. Please try again."

  /** `err.message || 'Failed to connect. Please try again.'` */
  function ErrorText(message: string): (r: string)
    ensures r != ""
    ensures message != "" ==> r == message
  {
    if message == "" then ConnectFailed else message
  }

  /** The error a connection attempt throws, or `None` when it connects. */
  function ConnectFailure(hasBluetooth: bool, choice: Choice, gatt: Gatt): Option<string> {
    if !hasBluetooth then Some(NoBluetooth)
    else if choice.Refused? then Some(choice.message)
    else if gatt.Rejected? then Some(gatt.message)
    else if gatt.NoServer? then Some(NoGattServer)
    else None
  }

  /** The statuses a connection attempt passes through: `connecting` only once a device is picked. */
  function ConnectTrace(hasBluetooth: bool, choice: Choice, gatt: Gatt): seq<Status> {
    (if hasBluetooth && choice.Picked? then [Scanning, Connecting] else [Scanning])
    + [if ConnectFailure(hasBluetooth, choice, gatt).None? then Connected else Error]
  }

  /**
   * A connection attempt ends connected exactly with Bluetooth, a picked
   * device and a GATT server, and otherwise in the error state with a
   * non-empty message: the connection's own message, or the message of
   * the chooser's or the GATT server's rejection when it has one.
   */
  lemma ConnectOutcome(hasBluetooth: bool, choice: Choice, gatt: Gatt)
    ensures var t := ConnectTrace(hasBluetooth, choice, gatt);
      && 2 <= |t| <= 3 && t[0] == Scanning && (t[|t| - 1] == Connected || t[|t| - 1] == Error)
      && (|t| == 3 <==> hasBluetooth && choice.Picked?)
      && (t[|t| - 1] == Connected <==> hasBluetooth && choice.Picked? && gatt.Server?)
      && (t[|t| - 1] == Connected <==> ConnectFailure(hasBluetooth, choice, gatt).None?)
    ensures var f := ConnectFailure(hasBluetooth, choice, gatt);
      && (f.Some? ==> ErrorText(f.value) != "")
      && (!hasBluetooth ==> f.Some? && ErrorText(f.value) == NoBluetooth)
      && (hasBluetooth && choice.Refused? ==> f == Some(choice.message))
      && (hasBluetooth && choice.Picked? && gatt.NoServer? ==> f.Some? && ErrorText(f.value) == NoGattServer)
      && (hasBluetooth && choice.Picked? && gatt.Rejected? ==> f == Some(gatt.message))
      && (hasBluetooth && choice.Picked? && gatt == Rejected("") ==> ErrorText(f.value) == ConnectFailed)
  {
    assert NoBluetooth != "" && NoGattServer != "";
  }

  /** The device screen's state. */
  class DeviceConnection {
    var status: Status
    var error: Option<string>
    var device: Option<nat>
    var live: LiveVitals
    var subscriptions: seq<Service>

    constructor()
      ensures status == Disconnected && error.None? && device.None? && live == NoVitals && subscriptions == []
    {
      status := Disconnected;
      error := None;
      device := None;
      live := NoVitals;
      subscriptions := [];
    }

    /** `updateVital` */
    method UpdateVital(v: LiveValue)
      modifies this`live
      ensures live == WithValue(old(live), v)
    {
      live := WithValue(live, v);
    }

    /** A heart-rate notification: the live rate is updated and the rate is saved as its decimal text. */
    method OnHeartRate(b: seq<Byte>) returns (save: Option<Save>)
      modifies this`live
      ensures HeartRate(b).None? ==> save.None? && live == old(live)
      ensures (HeartRate(b).Some? ==>
        var rate := HeartRate(b).value;
        live == WithValue(old(live), Rate(Some(rate))) && save == Some(Save("Heart Rate", NatToString(rate))))
    {
      var rate := HeartRate(b);
      if rate.None? {
        return None;
      }
      UpdateVital(Rate(rate));
      save := Some(Save("Heart Rate", NatToString(rate.value)));
    }

    /** An SpO2 notification: the live level is updated and saved as its text. */
    method OnSpO2(b: seq<Byte>) returns (save: Option<Save>)
      modifies this`live
      ensures SpO2Tenths(b).None? ==> save.None? && live == old(live)
      ensures (SpO2Tenths(b).Some? ==>
        var t := SpO2Tenths(b).value;
        live == WithValue(old(live), Oxygen(SpO2(b))) && save == Some(Save("SpO2", SpO2Text(t))))
    {
      var t := SpO2Tenths(b);
      if t.None? {
        return None;
      }
      UpdateVital(Oxygen(Some(t.value as real / 10.0)));
      save := Some(Save("SpO2", SpO2Text(t.value)));
    }

    /** A blood-pressure notification: the live pressure is updated and saved as "S/D". */
    method OnBloodPressure(b: seq<Byte>) returns (save: Option<Save>)
      modifies this`live
      ensures BloodPressure(b).None? ==> save.None? && live == old(live)
      ensures (BloodPressure(b).Some? ==>
        live == WithValue(old(live), Blood(BloodPressure(b)))
        && save == Some(Save("Blood Pressure", PressureText(BloodPressure(b).value))))
    {
      var p := BloodPressure(b);
      if p.None? {
        return None;
      }
      UpdateVital(Blood(p));
      save := Some(Save("Blood Pressure", PressureText(p.value)));
    }

    /** A battery notification updates the live level and saves nothing. */
    method OnBattery(b: seq<Byte>)
      modifies this`live
      ensures live == (if |b| >= 1 then WithValue(old(live), Battery(Some(b[0]))) else old(live))
    {
      var level := BatteryLevel(b);
      if level.Some? {
        UpdateVital(Battery(level));
      }
    }

    /** `onDisconnected`: status disconnected, every live reading cleared, no device. */
    method OnDisconnected()
      modifies this`status, this`live, this`device
      ensures status == Disconnected && live == NoVitals && device.None?
    {
      status := Disconnected;
      live := NoVitals;
      device := None;
    }

    /**
     * `connectDevice`. `hasBluetooth`, `choice`, `gatt` and
     * `available` stand for the browser's answers. The statuses the call
     * sets are returned in order; `disconnectStale` says whether the
     * failure path asks the device held when the call started to disconnect.
     */
    method ConnectDevice(hasBluetooth: bool, choice: Choice, gatt: Gatt, available: Service -> bool)
      returns (trace: seq<Status>, disconnectStale: bool)
      modifies this`status, this`error, this`device, this`subscriptions
      ensures var f := ConnectFailure(hasBluetooth, choice, gatt);
        && trace == ConnectTrace(hasBluetooth, choice, gatt) && status == trace[|trace| - 1]
        && error == (if f.Some? then Some(ErrorText(f.value)) else None)
        && device == (if hasBluetooth && choice.Picked? then Some(choice.id) else old(device))
        && subscriptions == (if f.None? then Subscribed(Services, available) else old(subscriptions))
        && disconnectStale == (f.Some? && old(device).Some?)
    {
      var stale := device;
      status, error := Scanning, None;
      trace := [Scanning];
      var thrown: Option<string> := None;
      if !hasBluetooth {
        thrown := Some(NoBluetooth);
      } else if choice.Refused? {
        thrown := Some(choice.message);
      } else {
        status, device := Connecting, Some(choice.id);
        trace := trace + [Connecting];
        if gatt.Rejected? {
          thrown := Some(gatt.message);
        } else if gatt.NoServer? {
          thrown := Some(NoGattServer);
        } else {
          subscriptions := Subscribed(Services, available);
          status := Connected;
        }
      }
      assert thrown == ConnectFailure(hasBluetooth, choice, gatt);
      assert trace == (if hasBluetooth && choice.Picked? then [Scanning, Connecting] else [Scanning]);
      disconnectStale := false;
      if thrown.Some? {
        status, error := Error, Some(ErrorText(thrown.value));
        disconnectStale := stale.Some?;
      }
      trace := trace + [status];
    }

    /**
     * `disconnectDevice`: with a device whose GATT link is up, asks the
     * device to disconnect (its disconnect event then runs
     * `OnDisconnected`); otherwise runs `OnDisconnected` at once.
     */
    method DisconnectDevice(gattConnected: bool) returns (requested: bool)
      modifies this`status, this`live, this`device
      ensures requested <==> old(device).Some? && gattConnected
      ensures requested ==> status == old(status) && live == old(live) && device == old(device)
      ensures !requested ==> status == Disconnected && live == NoVitals && device.None?
    {
      if device.Some? && gattConnected {
        return true;
      }
      OnDisconnected();
      requested := false;
    }
  }
}
